/**
 * The landing-page registration component. Submitting runs five client
 * guards (the full name is trimmed first), calls `registerUser` only when
 * they all pass, and then either resets the form to its initial values,
 * shows the "already registered" view with the returned profile, or shows
 * the error. Leaving the email field asks `checkEmailExists` about a
 * well-formed address; "Use Different Email" leaves that view again.
 */
module CyberInterface {
  import opened Common
  import opened Validation
  import opened Patterns
  import opened Profiles
  import opened Registration
  import opened Forms

  const NameRequired := "Full name is required"
  const EmailRequired := "Valid email is required"
  const ShortPassword := "Password must be at least 6 characters"
  const BadPhone := "Invalid phone number format"
  const BadFacebook := "Please enter a valid Facebook URL"
  const SuccessFallback := "Registration successful! Check your email."
  const AlreadyRegisteredText := "You are already registered with this email"
  const FailureFallback := "Registration failed. Please try again."
  const RejectedFallback := "An unexpected error occurred"
  const BlurAlreadyRegistered := "You are already registered with this email."
  const BlurFailed := "Error checking email availability"

  /** The field values the component starts with. */
  const InitialFields := Fields("", "", "", "", "", "", "no", "solo", "online")

  /** The field values a successful submission sets, one setter call each. */
  const ResetFields := Fields(
    email := "", password := "", fullName := "", phoneNumber := "", facebookUrl := "",
    university := "", ctfExperience := "no", teamPreference := "solo", participationMode := "online")

  /** The guards of `handleSubmit`, in the order they run. */
  function SubmitChecks(f: Fields): (cs: seq<Check>)
    ensures |cs| == 5
  {
    [ Check(Truthy(Trim(f.fullName)), NameRequired),
      Check(Truthy(f.email) && IsValidEmail(f.email), EmailRequired),
      Check(Truthy(f.password) && |f.password| >= 6, ShortPassword),
      Check(!Truthy(f.phoneNumber) || IsValidPhone(f.phoneNumber), BadPhone),
      Check(!Truthy(f.facebookUrl) || IsValidFacebookUrl(f.facebookUrl), BadFacebook) ]
  }

  /** The message of the first failing guard of `handleSubmit`, if any. */
  function SubmitFailure(f: Fields): Option<string> {
    FirstFailure(SubmitChecks(f))
  }

  /** The reset after a successful submission gives back the initial form. */
  lemma ResetIsInitial()
    ensures ResetFields == InitialFields
  {
  }

  /** A full name made only of whitespace is refused before anything else is checked. */
  lemma WhitespaceNameRejected(f: Fields)
    requires AllSpace(f.fullName)
    ensures FirstFailure(SubmitChecks(f)) == Some(NameRequired)
  {
    TrimEmptyIffAllSpace(f.fullName);
  }

  /** A non-blank full name gets past the first guard. */
  lemma BlankNameIffFirstGuardFails(f: Fields)
    ensures (FirstFailure(SubmitChecks(f)) == Some(NameRequired)) <==> AllSpace(f.fullName)
  {
    TrimEmptyIffAllSpace(f.fullName);
    var cs := SubmitChecks(f);
    if !AllSpace(f.fullName) {
      var k := FirstFailingIndex(cs);
      if k < |cs| {
        assert k > 0;
        assert cs[k].message != NameRequired;
      }
    }
  }

  /**
   * What the client lets through, the server accepts as well when the team
   * choice is one of the two radio values: the client guards are at least
   * as strict as the server's on the fields both check.
   */
  lemma ClientAcceptedIsServerAccepted(f: Fields)
    requires FirstFailure(SubmitChecks(f)).None?
    requires f.teamPreference in TeamPreferences
    ensures ValidateRegistration(FormDataOf(f)).None?
  {
    var cs := SubmitChecks(f);
    assert cs[0].passes && cs[1].passes && cs[2].passes && cs[3].passes && cs[4].passes;
    var server := ServerChecks(FormDataOf(f));
    assert forall j :: 0 <= j < |server| ==> server[j].passes by {
      assert server[0].passes && server[1].passes && server[2].passes;
      assert server[3].passes && server[4].passes && server[5].passes;
    }
  }

  /** The component's state. */
  class CyberInterface {
    var fields: Fields
    var formLoading: bool
    var message: Option<Message>
    var existingProfile: Option<ProfileSummary>
    var checkingEmail: bool

    constructor ()
      ensures fields == InitialFields && !formLoading && !checkingEmail
      ensures message.None? && existingProfile.None?
    {
      fields := InitialFields;
      formLoading := false;
      message := None;
      existingProfile := None;
      checkingEmail := false;
    }

    /**
     * `handleSubmit`. `reply` is how `registerUser` would end if called;
     * `sent` is the form actually sent, `None` when a guard failed first.
     */
    method HandleSubmit(reply: Reply) returns (sent: Option<FormData>)
      modifies this
      ensures !formLoading && checkingEmail == old(checkingEmail)
      ensures var failure := SubmitFailure(old(fields));
        && (failure.Some? ==>
              && sent.None?
              && message == Some(ErrorMessage(failure.value))
              && fields == old(fields) && existingProfile == old(existingProfile))
        && (failure.None? ==> sent == Some(FormDataOf(old(fields))))
      ensures sent.Some? && reply.Resolved? && reply.result.success ==>
        && message == Some(SuccessMessage(OptOrElse(reply.result.message, SuccessFallback)))
        && fields == ResetFields && existingProfile == old(existingProfile)
      ensures sent.Some? && reply.Resolved? && !reply.result.success && reply.result.alreadyRegistered ==>
        && existingProfile == reply.result.profile
        && message == Some(ErrorMessage(AlreadyRegisteredText))
        && fields == old(fields)
      ensures sent.Some? && reply.Resolved? && !reply.result.success && !reply.result.alreadyRegistered ==>
        && message == Some(ErrorMessage(OptOrElse(reply.result.error, FailureFallback)))
        && fields == old(fields) && existingProfile == old(existingProfile)
      ensures sent.Some? && reply.Rejected? ==>
        && message == Some(ErrorMessage(OrElse(reply.message, RejectedFallback)))
        && fields == old(fields) && existingProfile == old(existingProfile)
    {
      formLoading := true;
      message := None;
      var failure := SubmitFailure(fields);
      if failure.Some? {
        message := Some(ErrorMessage(failure.value));
        formLoading := false;
        return None;
      }
      sent := Some(FormDataOf(fields));
      ShowReply(reply);
      formLoading := false;
    }

    /** What `handleSubmit` does with the settled `registerUser` call. */
    method ShowReply(reply: Reply)
      modifies this
      ensures formLoading == old(formLoading) && checkingEmail == old(checkingEmail)
      ensures reply.Resolved? && reply.result.success ==>
        && message == Some(SuccessMessage(OptOrElse(reply.result.message, SuccessFallback)))
        && fields == ResetFields && existingProfile == old(existingProfile)
      ensures reply.Resolved? && !reply.result.success && reply.result.alreadyRegistered ==>
        && existingProfile == reply.result.profile
        && message == Some(ErrorMessage(AlreadyRegisteredText))
        && fields == old(fields)
      ensures reply.Resolved? && !reply.result.success && !reply.result.alreadyRegistered ==>
        && message == Some(ErrorMessage(OptOrElse(reply.result.error, FailureFallback)))
        && fields == old(fields) && existingProfile == old(existingProfile)
      ensures reply.Rejected? ==>
        && message == Some(ErrorMessage(OrElse(reply.message, RejectedFallback)))
        && fields == old(fields) && existingProfile == old(existingProfile)
    {
      match reply {
        case Resolved(result) =>
          if result.success {
            message := Some(SuccessMessage(OptOrElse(result.message, SuccessFallback)));
            fields := ResetFields;
          } else if result.alreadyRegistered {
            existingProfile := result.profile;
            message := Some(ErrorMessage(AlreadyRegisteredText));
          } else {
            message := Some(ErrorMessage(OptOrElse(result.error, FailureFallback)));
          }
        case Rejected(m) =>
          message := Some(ErrorMessage(OrElse(m, RejectedFallback)));
      }
    }

    /**
     * `handleEmailBlur` (after its debounce delay). `reply` is how
     * `checkEmailExists` would end; `queried` says whether it was asked.
     */
    method HandleEmailBlur(reply: CheckReply) returns (queried: bool)
      modifies this
      ensures queried <==> Truthy(old(fields.email)) && IsValidEmail(old(fields.email))
      ensures fields == old(fields) && formLoading == old(formLoading)
      ensures !queried ==> message == old(message) && existingProfile == old(existingProfile)
                           && checkingEmail == old(checkingEmail)
      ensures queried ==> !checkingEmail
      ensures queried && reply.Checked? && reply.check.emailExists ==>
        existingProfile == reply.check.profile && message == Some(ErrorMessage(BlurAlreadyRegistered))
      ensures queried && reply.Checked? && !reply.check.emailExists ==>
        existingProfile.None? && message.None?
      ensures queried && reply.CheckRejected? ==>
        existingProfile == old(existingProfile) && message == Some(ErrorMessage(BlurFailed))
    {
      queried := Truthy(fields.email) && IsValidEmail(fields.email);
      if queried {
        checkingEmail := true;
        match reply {
          case Checked(check) =>
            if check.emailExists {
              existingProfile := check.profile;
              message := Some(ErrorMessage(BlurAlreadyRegistered));
            } else {
              existingProfile := None;
              message := None;
            }
          case CheckRejected =>
            message := Some(ErrorMessage(BlurFailed));
        }
        checkingEmail := false;
      }
    }

    /** "Use Different Email": leaves the already-registered view with an empty email. */
    method UseDifferentEmail()
      modifies this
      ensures existingProfile.None? && message.None?
      ensures fields == old(fields).(email := "")
      ensures formLoading == old(formLoading) && checkingEmail == old(checkingEmail)
    {
      existingProfile := None;
      message := None;
      fields := fields.(email := "");
    }
  }
}
