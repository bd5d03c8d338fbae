/**
 * The server actions behind both registration forms: `checkEmailExists`
 * and `registerUser`. Registration validates the submitted fields in a
 * fixed order, normalises the optional ones, refuses an email that already
 * has a profile, creates the authentication user and then the profile row,
 * and deletes the new authentication user again when the row cannot be
 * written.
 *
 * `Register` states the whole action as a function of the backend state,
 * the submitted form and the backend's answers; `Backend.RegisterUser`
 * performs it step by step on a mutable backend and is proved to agree.
 */
module Registration {
  import opened Common
  import opened Validation
  import opened Patterns
  import opened Profiles

  /** The submitted `FormData`: a missing key reads as `null`. */
  type FormData = map<string, string>

  /**
   * `formData.get(key) as string`. Every use of a field in the action
   * treats `null` and "" alike (truthiness tests, `includes`, `=== "yes"`,
   * `|| null`), so a missing key is read as "".
   */
  function Field(form: FormData, key: string): string {
    if key in form then form[key] else ""
  }

  // ------------------------------------------------------------ validation

  const InvalidEmail := "Invalid email address"
  const ShortPassword := "Password must be at least 6 characters"
  const NameRequired := "Full name is required"
  const InvalidTeam := "Invalid team preference"
  const InvalidPhone := "Invalid phone number"
  const InvalidFacebook := "Invalid Facebook URL"

  /** The team preferences the action accepts. */
  const TeamPreferences: set<string> := {"solo", "team"}

  /** The guards of `registerUser`, in the order they run. */
  function ServerChecks(form: FormData): (cs: seq<Check>)
    ensures |cs| == 6
  {
    var email := Field(form, "email");
    var password := Field(form, "password");
    var phone := Field(form, "phoneNumber");
    var facebook := Field(form, "facebookUrl");
    [ Check(Truthy(email) && IsValidEmail(email), InvalidEmail),
      Check(Truthy(password) && |password| >= 6, ShortPassword),
      Check(Truthy(Field(form, "fullName")), NameRequired),
      Check(Field(form, "teamPreference") in TeamPreferences, InvalidTeam),
      Check(!Truthy(phone) || IsValidPhone(phone), InvalidPhone),
      Check(!Truthy(facebook) || IsValidFacebookUrl(facebook), InvalidFacebook) ]
  }

  /** The error of the first failing guard, or `None` when the form is acceptable. */
  function ValidateRegistration(form: FormData): Option<string> {
    FirstFailure(ServerChecks(form))
  }

  /** A form passes exactly when all six field conditions hold. */
  lemma ValidationAcceptsIff(form: FormData)
    ensures ValidateRegistration(form).None? <==>
      var email := Field(form, "email");
      var password := Field(form, "password");
      var phone := Field(form, "phoneNumber");
      var facebook := Field(form, "facebookUrl");
      && email != "" && EmailRegex(email)
      && |password| >= 6
      && Field(form, "fullName") != ""
      && Field(form, "teamPreference") in TeamPreferences
      && (phone == "" || IsValidPhone(phone))
      && (facebook == "" || FacebookRegex(facebook))
  {
    var cs := ServerChecks(form);
    EmailMatchesRegex(Field(form, "email"));
    FacebookMatchesRegex(Field(form, "facebookUrl"));
    assert (forall j :: 0 <= j < |cs| ==> cs[j].passes) <==>
      cs[0].passes && cs[1].passes && cs[2].passes && cs[3].passes && cs[4].passes && cs[5].passes;
  }

  /**
   * With email, password and name acceptable, a team preference other than
   * "solo" or "team" is what the action reports, whatever the later fields hold.
   */
  lemma InvalidTeamRejected(form: FormData)
    requires IsValidEmail(Field(form, "email"))
    requires |Field(form, "password")| >= 6
    requires Field(form, "fullName") != ""
    requires Field(form, "teamPreference") !in TeamPreferences
    ensures ValidateRegistration(form) == Some(InvalidTeam)
  {
    var cs := ServerChecks(form);
    assert FirstFailingIndex(cs) == 3 by {
      assert cs[0].passes && cs[1].passes && cs[2].passes && !cs[3].passes;
      assert FirstFailingIndex(cs[3..]) == 0;
      assert cs[1..][1..][1..] == cs[3..];
    }
  }

  /** Empty optional fields never make a form fail. */
  lemma EmptyOptionalFieldsAccepted(form: FormData)
    requires Field(form, "phoneNumber") == "" && Field(form, "facebookUrl") == ""
    ensures ValidateRegistration(form) !in {Some(InvalidPhone), Some(InvalidFacebook)}
  {
    var cs := ServerChecks(form);
    var k := FirstFailingIndex(cs);
    assert cs[4].passes && cs[5].passes;
    if k < |cs| {
      assert k < 4;
      assert cs[k].message != InvalidPhone && cs[k].message != InvalidFacebook;
    }
  }

  // --------------------------------------------------------- normalisation

  /** `value || null`: the empty string is stored as `null`. */
  function Normalize(value: string): (r: Option<string>)
    ensures r.None? <==> value == ""
    ensures r.Some? ==> r.value == value
  {
    if value == "" then None else Some(value)
  }

  /** The row `registerUser` inserts for a new authentication user. */
  function NewProfile(form: FormData, userId: string, createdAt: string): Profile {
    Profile(
      id := userId,
      fullName := Some(Field(form, "fullName")),
      email := Field(form, "email"),
      phoneNumber := Normalize(Field(form, "phoneNumber")),
      facebookUrl := Normalize(Field(form, "facebookUrl")),
      university := Normalize(Field(form, "university")),
      ctfExperience := Field(form, "ctfExperience") == "yes",
      teamPreference := Field(form, "teamPreference"),
      isAdmin := false,
      createdAt := createdAt)
  }

  // ----------------------------------------------------- checkEmailExists

  /** `{ exists, profile }`. */
  datatype EmailCheck = EmailCheck(emailExists: bool, profile: Option<ProfileSummary>)

  /**
   * `checkEmailExists`: a returned row means the email is taken; "no single
   * row", any other error and an exception all read as "not taken".
   */
  function CheckEmailExists(q: QueryOutcome): (r: EmailCheck)
    ensures r.emailExists <==> q.Answered? && q.answer.Row?
    ensures r.emailExists ==> r.profile == Some(Summary(q.answer.row))
    ensures !r.emailExists ==> r.profile.None?
  {
    match q
    case Thrown => EmailCheck(false, None)
    // "PGRST116" reaches `{ exists: !!data, profile: data }` with `data` null;
    // any other code takes the explicit fallback. Both give (false, null).
    case Answered(QueryError(_, _)) => EmailCheck(false, None)
    case Answered(Row(p)) => EmailCheck(true, Some(Summary(p)))
  }

  // ---------------------------------------------------------- registerUser

  /** The object `registerUser` resolves to. */
  datatype RegisterResult = RegisterResult(
    success: bool,
    message: Option<string>,
    error: Option<string>,
    profile: Option<ProfileSummary>,
    alreadyRegistered: bool)

  function Failed(error: string): RegisterResult {
    RegisterResult(false, None, Some(error), None, false)
  }

  const Unexpected := "An unexpected error occurred. Please try again."
  const AlreadyRegistered := "You are already registered"
  const SignUpFallback := "Failed to register user"
  const Registered := "Registration successful! Check your email for confirmation."

  /** How `auth.signUp` ends. */
  datatype SignUpOutcome = SignedUp(userId: string) | SignUpFailed(message: string) | NoUserReturned | SignUpThrows

  /** How the profile `insert` ends. */
  datatype InsertOutcome = Inserted | InsertFailed(message: string) | InsertThrows

  /** How `auth.admin.deleteUser` ends; its error is not inspected. */
  datatype DeleteOutcome = Deleted | DeleteFailed | DeleteThrows

  /**
   * The backend's side of one `registerUser` call: whether the server
   * client can be created (both environment variables set), how each call
   * ends, and the `created_at` the table assigns.
   */
  datatype Sdk = Sdk(
    configured: bool,
    lookupFault: Fault,
    signUp: SignUpOutcome,
    insert: InsertOutcome,
    delete: DeleteOutcome,
    createdAt: string)

  /** The backend calls `registerUser` makes, in order. */
  datatype Call = SelectByEmail(email: string) | SignUp(email: string) | InsertProfile(row: Profile) | DeleteUser(id: string)

  datatype Outcome = Outcome(result: RegisterResult, store: Store, calls: seq<Call>)

  const InsertPrefix := "Failed to create profile: "

  /** `registerUser` as a function of the backend state, the form and the backend's answers. */
  function Register(st: Store, form: FormData, sdk: Sdk): Outcome {
    if !sdk.configured then Outcome(Failed(Unexpected), st, [])
    else
      match ValidateRegistration(form)
      case Some(error) => Outcome(Failed(error), st, [])
      case None =>
        var email := Field(form, "email");
        var check := CheckEmailExists(Query(st.profiles, EmailColumn, email, sdk.lookupFault));
        var looked := [SelectByEmail(email)];
        if check.emailExists then
          Outcome(RegisterResult(false, None, Some(AlreadyRegistered), check.profile, true), st, looked)
        else
          CreateAccount(st, form, sdk, looked + [SignUp(email)])
  }

  /**
   * The rest of `registerUser` once the email is known to be free: the
   * sign-up, the profile insert and the compensating delete. `calls` are
   * the calls made so far.
   */
  function CreateAccount(st: Store, form: FormData, sdk: Sdk, calls: seq<Call>): Outcome {
    match sdk.signUp
    case SignUpThrows => Outcome(Failed(Unexpected), st, calls)
    case SignUpFailed(m) => Outcome(Failed(OrElse(m, SignUpFallback)), st, calls)
    case NoUserReturned => Outcome(Failed(SignUpFallback), st, calls)
    case SignedUp(id) =>
      var withUser := st.(authUsers := st.authUsers + {id});
      var row := NewProfile(form, id, sdk.createdAt);
      var inserted := calls + [InsertProfile(row)];
      match sdk.insert
      case Inserted =>
        Outcome(RegisterResult(true, Some(Registered), None, None, false),
                withUser.(profiles := st.profiles + [row]), inserted)
      case InsertThrows => Outcome(Failed(Unexpected), withUser, inserted)
      case InsertFailed(m) =>
        var compensated := inserted + [DeleteUser(id)];
        match sdk.delete
        case Deleted =>
          Outcome(Failed(InsertPrefix + m), withUser.(authUsers := withUser.authUsers - {id}), compensated)
        case DeleteFailed => Outcome(Failed(InsertPrefix + m), withUser, compensated)
        case DeleteThrows => Outcome(Failed(Unexpected), withUser, compensated)
  }

  /** A free email on a configured server with a valid form goes on to the account steps. */
  lemma RegisterReachesCreateAccount(st: Store, form: FormData, sdk: Sdk)
    requires sdk.configured && ValidateRegistration(form).None?
    requires !CheckEmailExists(Query(st.profiles, EmailColumn, Field(form, "email"), sdk.lookupFault)).emailExists
    ensures var email := Field(form, "email");
      Register(st, form, sdk) == CreateAccount(st, form, sdk, [SelectByEmail(email)] + [SignUp(email)])
  {
  }

  /** Only a configured server, a valid form and a free email can lead to success. */
  lemma SuccessPassedLookup(st: Store, form: FormData, sdk: Sdk)
    requires Register(st, form, sdk).result.success
    ensures sdk.configured && ValidateRegistration(form).None?
    ensures !CheckEmailExists(Query(st.profiles, EmailColumn, Field(form, "email"), sdk.lookupFault)).emailExists
  {
  }

  /** The account steps succeed only by signing up and inserting, and then append the new row. */
  lemma CreateAccountSuccess(st: Store, form: FormData, sdk: Sdk, calls: seq<Call>)
    requires CreateAccount(st, form, sdk, calls).result.success
    ensures sdk.signUp.SignedUp? && sdk.insert.Inserted?
    ensures var o := CreateAccount(st, form, sdk, calls);
      && o.store.profiles == st.profiles + [NewProfile(form, sdk.signUp.userId, sdk.createdAt)]
      && o.store.authUsers == st.authUsers + {sdk.signUp.userId}
  {
  }

  /** Failed account steps leave the profile table alone. */
  lemma CreateAccountFailure(st: Store, form: FormData, sdk: Sdk, calls: seq<Call>)
    requires !CreateAccount(st, form, sdk, calls).result.success
    ensures CreateAccount(st, form, sdk, calls).store.profiles == st.profiles
  {
  }

  /** A form that fails validation is answered without any backend call and changes nothing. */
  lemma InvalidFormTouchesNothing(st: Store, form: FormData, sdk: Sdk)
    requires ValidateRegistration(form).Some?
    ensures var o := Register(st, form, sdk);
      && !o.result.success && o.calls == [] && o.store == st
      && o.result.error == Some(if sdk.configured then ValidateRegistration(form).value else Unexpected)
  {
  }

  /**
   * An email the lookup finds is answered with the found profile and
   * `alreadyRegistered`, after the lookup alone: no sign-up, no insert.
   */
  lemma DuplicateStopsAfterLookup(st: Store, form: FormData, sdk: Sdk)
    requires sdk.configured && ValidateRegistration(form).None?
    requires sdk.lookupFault.NoFault?
    requires exists p :: p in st.profiles && p.email == Field(form, "email")
    requires Unique(st.profiles, EmailColumn)
    ensures var o := Register(st, form, sdk);
      && !o.result.success && o.result.alreadyRegistered && o.result.profile.Some?
      && o.result.profile.value.email == Field(form, "email")
      && o.calls == [SelectByEmail(Field(form, "email"))] && o.store == st
  {
    UniqueSingle(st.profiles, EmailColumn, Field(form, "email"));
  }

  /**
   * A successful registration appends exactly one row: the new user's,
   * not an admin, with `ctf_experience` true iff the form said "yes", empty
   * optional fields stored as null, and a validated email and team.
   */
  lemma SuccessAppendsNormalisedRow(st: Store, form: FormData, sdk: Sdk)
    requires Register(st, form, sdk).result.success
    ensures var o := Register(st, form, sdk);
      && sdk.signUp.SignedUp? && sdk.insert.Inserted?
      && |o.store.profiles| == |st.profiles| + 1
      && o.store.profiles[..|st.profiles|] == st.profiles
      && var row := o.store.profiles[|st.profiles|];
      && row.id == sdk.signUp.userId && row.id in o.store.authUsers
      && !row.isAdmin
      && row.ctfExperience == (Field(form, "ctfExperience") == "yes")
      && (row.phoneNumber.None? <==> Field(form, "phoneNumber") == "")
      && (row.facebookUrl.None? <==> Field(form, "facebookUrl") == "")
      && (row.university.None? <==> Field(form, "university") == "")
      && row.teamPreference in TeamPreferences
      && IsValidEmail(row.email)
  {
    SuccessPath(st, form, sdk);
    var cs := ServerChecks(form);
    assert forall j :: 0 <= j < |cs| ==> cs[j].passes;
    assert cs[0].passes && cs[3].passes;
  }

  /** Only a successful registration changes the profile table. */
  lemma FailureKeepsProfiles(st: Store, form: FormData, sdk: Sdk)
    requires !Register(st, form, sdk).result.success
    ensures Register(st, form, sdk).store.profiles == st.profiles
  {
    var email := Field(form, "email");
    if sdk.configured && ValidateRegistration(form).None?
       && !CheckEmailExists(Query(st.profiles, EmailColumn, email, sdk.lookupFault)).emailExists {
      RegisterReachesCreateAccount(st, form, sdk);
      CreateAccountFailure(st, form, sdk, [SelectByEmail(email)] + [SignUp(email)]);
    }
  }

  /**
   * When the insert fails and the delete succeeds, the new authentication
   * user is removed again: a user id the backend had not seen before leaves
   * the backend exactly as it was.
   */
  lemma CompensationRestoresStore(st: Store, form: FormData, sdk: Sdk)
    requires sdk.configured && ValidateRegistration(form).None?
    requires !CheckEmailExists(Query(st.profiles, EmailColumn, Field(form, "email"), sdk.lookupFault)).emailExists
    requires sdk.signUp.SignedUp? && sdk.signUp.userId !in st.authUsers
    requires sdk.insert.InsertFailed? && sdk.delete.Deleted?
    ensures var o := Register(st, form, sdk);
      && o.store == st && !o.result.success
      && o.result.error == Some(InsertPrefix + sdk.insert.message)
      && o.calls[|o.calls| - 1] == DeleteUser(sdk.signUp.userId)
  {
    var id := sdk.signUp.userId;
    assert st.authUsers + {id} - {id} == st.authUsers;
  }

  /** A successful registration passed the lookup and appended the new user's row. */
  lemma SuccessPath(st: Store, form: FormData, sdk: Sdk)
    requires Register(st, form, sdk).result.success
    ensures sdk.configured && ValidateRegistration(form).None?
    ensures !CheckEmailExists(Query(st.profiles, EmailColumn, Field(form, "email"), sdk.lookupFault)).emailExists
    ensures sdk.signUp.SignedUp? && sdk.insert.Inserted?
    ensures Register(st, form, sdk).store.profiles
            == st.profiles + [NewProfile(form, sdk.signUp.userId, sdk.createdAt)]
    ensures Register(st, form, sdk).store.authUsers == st.authUsers + {sdk.signUp.userId}
  {
    var email := Field(form, "email");
    SuccessPassedLookup(st, form, sdk);
    RegisterReachesCreateAccount(st, form, sdk);
    CreateAccountSuccess(st, form, sdk, [SelectByEmail(email)] + [SignUp(email)]);
  }

  /** Appending a row whose email no row has keeps emails unique. */
  lemma AppendFreshEmail(rows: seq<Profile>, row: Profile)
    requires Unique(rows, EmailColumn)
    requires forall p :: p in rows ==> p.email != row.email
    ensures Unique(rows + [row], EmailColumn)
  {
    var all := rows + [row];
    forall i, j | 0 <= i < j < |all| ensures all[i].email != all[j].email {
      if j == |rows| {
        assert all[i] in rows;
      } else {
        assert all[i] == rows[i] && all[j] == rows[j];
      }
    }
  }

  /**
   * When the lookup answers from the table, registration never creates a
   * second row for an email: unique emails stay unique.
   */
  lemma RegistrationKeepsEmailsUnique(st: Store, form: FormData, sdk: Sdk)
    requires Unique(st.profiles, EmailColumn) && sdk.lookupFault.NoFault?
    ensures Unique(Register(st, form, sdk).store.profiles, EmailColumn)
  {
    if Register(st, form, sdk).result.success {
      var email := Field(form, "email");
      SuccessPath(st, form, sdk);
      UniqueSingle(st.profiles, EmailColumn, email);
      AppendFreshEmail(st.profiles, NewProfile(form, sdk.signUp.userId, sdk.createdAt));
    } else {
      FailureKeepsProfiles(st, form, sdk);
    }
  }

  /** The hosted backend as `registerUser` changes it. */
  class Backend {
    var authUsers: set<string>
    var profiles: seq<Profile>

    function State(): Store
      reads this
    {
      Store(authUsers, profiles)
    }

    constructor (initial: Store)
      ensures State() == initial
    {
      authUsers := initial.authUsers;
      profiles := initial.profiles;
    }

    /**
     * `registerUser(formData)`: guards, lookup, sign-up, insert and
     * compensating delete, run in that order on this backend.
     */
    method RegisterUser(form: FormData, sdk: Sdk) returns (result: RegisterResult, calls: seq<Call>)
      modifies this
      ensures Register(old(State()), form, sdk) == Outcome(result, State(), calls)
    {
      calls := [];
      if !sdk.configured {
        return Failed(Unexpected), calls;
      }
      match ValidateRegistration(form) {
        case Some(error) => return Failed(error), calls;
        case None =>
      }
      var email := Field(form, "email");
      calls := [SelectByEmail(email)];
      var check := CheckEmailExists(Query(profiles, EmailColumn, email, sdk.lookupFault));
      if check.emailExists {
        return RegisterResult(false, None, Some(AlreadyRegistered), check.profile, true), calls;
      }
      RegisterReachesCreateAccount(State(), form, sdk);
      result, calls := CreateAccountStep(form, sdk, calls + [SignUp(email)]);
    }

    /** The sign-up, insert and compensation steps, after `calls`. */
    method CreateAccountStep(form: FormData, sdk: Sdk, calls0: seq<Call>) returns (result: RegisterResult, calls: seq<Call>)
      modifies this
      ensures CreateAccount(old(State()), form, sdk, calls0) == Outcome(result, State(), calls)
    {
      calls := calls0;
      if sdk.signUp.SignUpThrows? {
        return Failed(Unexpected), calls;
      } else if sdk.signUp.SignUpFailed? {
        return Failed(OrElse(sdk.signUp.message, SignUpFallback)), calls;
      } else if sdk.signUp.NoUserReturned? {
        return Failed(SignUpFallback), calls;
      }
      var id := sdk.signUp.userId;
      authUsers := authUsers + {id};
      var row := NewProfile(form, id, sdk.createdAt);
      calls := calls + [InsertProfile(row)];
      if sdk.insert.InsertThrows? {
        return Failed(Unexpected), calls;
      } else if sdk.insert.InsertFailed? {
        calls := calls + [DeleteUser(id)];
        if sdk.delete.DeleteThrows? {
          return Failed(Unexpected), calls;
        }
        if sdk.delete.Deleted? {
          authUsers := authUsers - {id};
        }
        return Failed(InsertPrefix + sdk.insert.message), calls;
      }
      profiles := profiles + [row];
      result := RegisterResult(true, Some(Registered), None, None, false);
    }
  }
}
