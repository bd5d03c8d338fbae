/**
 * The stand-alone registration component. It differs from the landing-page
 * component in small ways the model keeps: the full name is tested for
 * emptiness without trimming, participation mode starts as "on-site" but
 * is reset to "online", the already-registered view needs both the flag
 * and a profile, and the email check has no `finally`, so a rejected check
 * leaves `checkingEmail` set.
 */
module RegistrationForm {
  import opened Common
  import opened Validation
  import opened Patterns
  import opened Profiles
  import opened Registration
  import opened Forms

  const NameRequired := "Full name is required"
  const InvalidEmail := "Invalid email address"
  const ShortPassword := "Password must be at least 6 characters"
  const InvalidPhone := "Invalid phone number"
  const InvalidFacebook := "Invalid Facebook URL"
  const SuccessFallback := "Registration successful! Check your email for confirmation."
  const AlreadyRegisteredText := "You are already registered with the following information:"
  const FailureFallback := "Registration failed. Please try again."
  const RejectedFallback := "An unexpected error occurred. Please try again."
  const BlurAlreadyRegistered := "You are already registered with this email."

  /** The field values the component starts with. */
  const InitialFields := Fields("", "", "", "", "", "", "no", "solo", "on-site")

  /** The field values a successful sign-up sets. */
  const ResetFields := Fields(
    email := "", password := "", fullName := "", phoneNumber := "", facebookUrl := "",
    university := "", ctfExperience := "no", teamPreference := "solo", participationMode := "online")

  /** The values of the two participation-mode radio buttons. */
  const ParticipationModes := {"online", "onsite"}

  /**
   * The initial mode selects neither radio button; the reset selects
   * "online". A form submitted before the mode is touched sends "on-site".
   */
  lemma InitialModeSelectsNoRadio()
    ensures InitialFields.participationMode !in ParticipationModes
    ensures ResetFields.participationMode in ParticipationModes
  {
  }

  /** The guards of `handleSignUp`, in the order they run. */
  function SignUpChecks(f: Fields): (cs: seq<Check>)
    ensures |cs| == 5
  {
    [ Check(Truthy(f.fullName), NameRequired),
      Check(Truthy(f.email) && IsValidEmail(f.email), InvalidEmail),
      Check(Truthy(f.password) && |f.password| >= 6, ShortPassword),
      Check(!Truthy(f.phoneNumber) || IsValidPhone(f.phoneNumber), InvalidPhone),
      Check(!Truthy(f.facebookUrl) || IsValidFacebookUrl(f.facebookUrl), InvalidFacebook) ]
  }

  /** The message of the first failing guard of `handleSignUp`, if any. */
  function SignUpFailure(f: Fields): Option<string> {
    FirstFailure(SignUpChecks(f))
  }

  /** The reset differs from the initial form in the participation mode and nowhere else. */
  lemma ResetDiffersOnlyInMode()
    ensures ResetFields != InitialFields
    ensures ResetFields == InitialFields.(participationMode := "online")
  {
  }

  /**
   * Without trimming, a full name of spaces passes the name guard: such a
   * form is refused, if at all, for another field.
   */
  lemma SpacesNamePassesNameGuard(f: Fields)
    requires f.fullName != ""
    ensures SignUpFailure(f) != Some(NameRequired)
  {
    var cs := SignUpChecks(f);
    var k := FirstFailingIndex(cs);
    if k < |cs| {
      assert k > 0;
      assert cs[k].message != NameRequired;
    }
  }

  /**
   * What the client lets through, the server accepts as well when the team
   * choice is one of the two radio values.
   */
  lemma ClientAcceptedIsServerAccepted(f: Fields)
    requires SignUpFailure(f).None?
    requires f.teamPreference in TeamPreferences
    ensures ValidateRegistration(FormDataOf(f)).None?
  {
    var cs := SignUpChecks(f);
    assert cs[0].passes && cs[1].passes && cs[2].passes && cs[3].passes && cs[4].passes;
    var server := ServerChecks(FormDataOf(f));
    assert forall j :: 0 <= j < |server| ==> server[j].passes by {
      assert server[0].passes && server[1].passes && server[2].passes;
      assert server[3].passes && server[4].passes && server[5].passes;
    }
  }

  /** The component's state. */
  class SignUpForm {
    var fields: Fields
    var loading: bool
    var message: Option<Message>
    var existingProfile: Option<ProfileSummary>
    var checkingEmail: bool

    constructor ()
      ensures fields == InitialFields && !loading && !checkingEmail
      ensures message.None? && existingProfile.None?
    {
      fields := InitialFields;
      loading := false;
      message := None;
      existingProfile := None;
      checkingEmail := false;
    }

    /** `disabled={loading || !!existingProfile}` on the submit button. */
    predicate SubmitDisabled()
      reads this
    {
      loading || existingProfile.Some?
    }

    /**
     * `handleSignUp`. `reply` is how `registerUser` would end if called;
     * `sent` is the form actually sent, `None` when a guard failed first.
     */
    method HandleSignUp(reply: Reply) returns (sent: Option<FormData>)
      modifies this
      ensures !loading && checkingEmail == old(checkingEmail)
      ensures SubmitDisabled() <==> existingProfile.Some?
      ensures var failure := SignUpFailure(old(fields));
        && (failure.Some? ==>
              && sent.None?
              && message == Some(ErrorMessage(failure.value))
              && fields == old(fields) && existingProfile == old(existingProfile))
        && (failure.None? ==> sent == Some(FormDataOf(old(fields))))
      ensures sent.Some? && reply.Resolved? && reply.result.success ==>
        && message == Some(SuccessMessage(OptOrElse(reply.result.message, SuccessFallback)))
        && fields == ResetFields && existingProfile == old(existingProfile)
      ensures sent.Some? && reply.Resolved? && !reply.result.success ==>
        && fields == old(fields)
        && var shown := reply.result.alreadyRegistered && reply.result.profile.Some?;
        && (shown ==> existingProfile == reply.result.profile
                      && message == Some(ErrorMessage(AlreadyRegisteredText)))
        && (!shown ==> existingProfile == old(existingProfile)
                       && message == Some(ErrorMessage(OptOrElse(reply.result.error, FailureFallback))))
      ensures sent.Some? && reply.Rejected? ==>
        && message == Some(ErrorMessage(OrElse(reply.message, RejectedFallback)))
        && fields == old(fields) && existingProfile == old(existingProfile)
    {
      loading := true;
      message := None;
      var failure := SignUpFailure(fields);
      if failure.Some? {
        message := Some(ErrorMessage(failure.value));
        loading := false;
        return None;
      }
      sent := Some(FormDataOf(fields));
      ShowReply(reply);
      loading := false;
    }

    /** What `handleSignUp` does with the settled `registerUser` call. */
    method ShowReply(reply: Reply)
      modifies this
      ensures loading == old(loading) && checkingEmail == old(checkingEmail)
      ensures reply.Resolved? && reply.result.success ==>
        && message == Some(SuccessMessage(OptOrElse(reply.result.message, SuccessFallback)))
        && fields == ResetFields && existingProfile == old(existingProfile)
      ensures reply.Resolved? && !reply.result.success ==>
        && fields == old(fields)
        && var shown := reply.result.alreadyRegistered && reply.result.profile.Some?;
        && (shown ==> existingProfile == reply.result.profile
                      && message == Some(ErrorMessage(AlreadyRegisteredText)))
        && (!shown ==> existingProfile == old(existingProfile)
                       && message == Some(ErrorMessage(OptOrElse(reply.result.error, FailureFallback))))
      ensures reply.Rejected? ==>
        && message == Some(ErrorMessage(OrElse(reply.message, RejectedFallback)))
        && fields == old(fields) && existingProfile == old(existingProfile)
    {
      match reply {
        case Resolved(result) =>
          if result.success {
            message := Some(SuccessMessage(OptOrElse(result.message, SuccessFallback)));
            fields := ResetFields;
          } else if result.alreadyRegistered && result.profile.Some? {
            existingProfile := result.profile;
            message := Some(ErrorMessage(AlreadyRegisteredText));
          } else {
            message := Some(ErrorMessage(OptOrElse(result.error, FailureFallback)));
          }
        case Rejected(m) =>
          message := Some(ErrorMessage(OrElse(m, RejectedFallback)));
      }
    }

    /**
     * `handleEmailBlur`. `reply` is how `checkEmailExists` would end;
     * `queried` says whether it was asked. A rejected call skips the
     * statements after the `await`, so `checkingEmail` stays true.
     */
    method HandleEmailBlur(reply: CheckReply) returns (queried: bool)
      modifies this
      ensures queried <==> Truthy(old(fields.email)) && IsValidEmail(old(fields.email))
      ensures fields == old(fields) && loading == old(loading)
      ensures !queried ==> message == old(message) && existingProfile == old(existingProfile)
                           && checkingEmail == old(checkingEmail)
      ensures queried && reply.Checked? ==> !checkingEmail
      ensures queried && reply.Checked? && reply.check.emailExists ==>
        existingProfile == reply.check.profile && message == Some(ErrorMessage(BlurAlreadyRegistered))
      ensures queried && reply.Checked? && !reply.check.emailExists ==>
        existingProfile.None? && message.None?
      ensures queried && reply.CheckRejected? ==>
        checkingEmail && existingProfile == old(existingProfile) && message == old(message)
    {
      queried := Truthy(fields.email) && IsValidEmail(fields.email);
      if queried {
        checkingEmail := true;
        match reply {
          case Checked(check) =>
            checkingEmail := false;
            if check.emailExists {
              existingProfile := check.profile;
              message := Some(ErrorMessage(BlurAlreadyRegistered));
            } else {
              existingProfile := None;
              message := None;
            }
          case CheckRejected =>
        }
      }
    }

    /** "Register with a different email": leaves the already-registered view with an empty email. */
    method RegisterDifferentEmail()
      modifies this
      ensures existingProfile.None? && message.None?
      ensures fields == old(fields).(email := "")
      ensures loading == old(loading) && checkingEmail == old(checkingEmail)
    {
      existingProfile := None;
      message := None;
      fields := fields.(email := "");
    }
  }
}
