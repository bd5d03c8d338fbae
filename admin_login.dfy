/**
 * The admin login page. The `error` and `redirected` query parameters the
 * middleware and layouts add are turned into a banner; the email input is
 * stored trimmed; submitting checks the email pattern, then the password
 * length, and only then signs in, going to `/admin` on success.
 */
module AdminLogin {
  import opened Common
  import opened Validation
  import opened Patterns

  const NotAdminText := "You do not have admin privileges"
  const AuthFailedText := "Authentication service unavailable. Please try again later."
  const ConfigText := "Server configuration error. Please contact support."
  const TooManyText := "Too many redirects. Please clear your browser cache and try again."
  const PleaseLogIn := "Please log in to access the admin panel"
  const InvalidEmail := "Please enter a valid email address"
  const ShortPassword := "Password must be at least 8 characters long"
  const BadCredentials := "Invalid email or password"
  const AuthUnavailable := "Authentication failed. Please try again later."
  const Unexpected := "An unexpected error occurred. Please try again."
  const AdminHome := "/admin"

  /** The four error parameters the page knows. */
  const KnownErrors := {"not-admin", "auth-failed", "config", "too-many-redirects"}

  /** The banner for the page's query parameters, if any. */
  function ErrorParamMessage(errorParam: Option<string>, redirected: Option<string>): (m: Option<string>)
    ensures errorParam == Some("not-admin") ==> m == Some(NotAdminText)
    ensures errorParam == Some("auth-failed") ==> m == Some(AuthFailedText)
    ensures errorParam == Some("config") ==> m == Some(ConfigText)
    ensures errorParam == Some("too-many-redirects") ==> m == Some(TooManyText)
  {
    if errorParam == Some("not-admin") then Some(NotAdminText)
    else if errorParam == Some("auth-failed") then Some(AuthFailedText)
    else if errorParam == Some("config") then Some(ConfigText)
    else if errorParam == Some("too-many-redirects") then Some(TooManyText)
    else if Truthy(redirected.GetOr("")) then Some(PleaseLogIn)
    else None
  }

  /** A known error parameter wins over `redirected`; otherwise a non-empty `redirected` asks to log in. */
  lemma ErrorParamPrecedence(errorParam: Option<string>, redirected: Option<string>)
    ensures errorParam.Some? && errorParam.value in KnownErrors ==>
      ErrorParamMessage(errorParam, redirected) == ErrorParamMessage(errorParam, None)
    ensures !(errorParam.Some? && errorParam.value in KnownErrors) ==>
      (ErrorParamMessage(errorParam, redirected).Some? <==> redirected.Some? && redirected.value != "")
    ensures !(errorParam.Some? && errorParam.value in KnownErrors) && redirected.Some? && redirected.value != "" ==>
      ErrorParamMessage(errorParam, redirected) == Some(PleaseLogIn)
  {
  }

  /** The guards of `handleLogin`, in order. */
  function LoginChecks(email: string, password: string): seq<Check> {
    [Check(IsValidEmail(email), InvalidEmail), Check(|password| >= 8, ShortPassword)]
  }

  /** The stored email never starts or ends with whitespace. */
  lemma TrimmedEmailHasNoOuterSpace(v: string)
    ensures var e := Trim(v); e != "" ==> !IsSpace(e[0]) && !IsSpace(e[|e| - 1])
  {
    var t := TrimStart(v);
    TrimStartShape(v);
    TrimEndShape(t);
    var e := Trim(v);
    if e != "" {
      assert e[0] == t[0];
    }
  }

  /** How `signInWithPassword` ends. */
  datatype AuthReply = SignedIn | AuthError(status: int) | AuthThrows

  class LoginPage {
    var email: string
    var password: string
    var loading: bool
    var error: Option<string>
    var navigations: seq<string>

    constructor ()
      ensures email == "" && password == "" && !loading && error.None? && navigations == []
    {
      email := "";
      password := "";
      loading := false;
      error := None;
      navigations := [];
    }

    /** The effect on the query parameters: a banner replaces the error; no banner leaves it. */
    method ApplySearchParams(errorParam: Option<string>, redirected: Option<string>)
      modifies this
      ensures var m := ErrorParamMessage(errorParam, redirected);
        error == (if m.Some? then m else old(error))
      ensures email == old(email) && password == old(password) && loading == old(loading)
      ensures navigations == old(navigations)
    {
      var m := ErrorParamMessage(errorParam, redirected);
      if m.Some? {
        error := m;
      }
    }

    /** The email input's `onChange`: the value is stored trimmed. */
    method SetEmail(value: string)
      modifies this
      ensures email == Trim(value)
      ensures password == old(password) && loading == old(loading) && error == old(error)
      ensures navigations == old(navigations)
    {
      email := Trim(value);
    }

    /** `handleLogin`. `signedIn` says whether `signInWithPassword` was called. */
    method HandleLogin(auth: AuthReply) returns (signedIn: bool)
      modifies this
      ensures email == old(email) && password == old(password)
      ensures signedIn <==> FirstFailure(LoginChecks(old(email), old(password))).None?
      ensures !signedIn ==>
        && error == FirstFailure(LoginChecks(old(email), old(password)))
        && loading == old(loading) && navigations == old(navigations)
      ensures signedIn ==> !loading
      ensures signedIn && auth.SignedIn? ==> error.None? && navigations == old(navigations) + [AdminHome]
      ensures signedIn && !auth.SignedIn? ==> navigations == old(navigations)
      ensures signedIn && auth.AuthError? ==>
        error == Some(if auth.status == 400 then BadCredentials else AuthUnavailable)
      ensures signedIn && auth.AuthThrows? ==> error == Some(Unexpected)
    {
      error := None;
      if !IsValidEmail(email) {
        error := Some(InvalidEmail);
        return false;
      }
      if |password| < 8 {
        assert FirstFailingIndex(LoginChecks(email, password)) == 1;
        error := Some(ShortPassword);
        return false;
      }
      signedIn := true;
      loading := true;
      match auth {
        case SignedIn =>
          navigations := navigations + [AdminHome];
        case AuthError(status) =>
          error := Some(if status == 400 then BadCredentials else AuthUnavailable);
        case AuthThrows =>
          error := Some(Unexpected);
      }
      loading := false;
    }
  }
}
