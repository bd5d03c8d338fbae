/**
 * The client-side shell of the admin pages. On mount it asks for the
 * session and the user's profile: no session goes to the login page, a
 * profile that is missing or not an admin goes to the home page, and an
 * exception goes to the login page. Only an admin profile sets `isAdmin`,
 * and the shell shows its children only once loading is over and
 * `isAdmin` is true. Navigation is recorded as the list of pushed paths.
 */
module AdminLayout {
  import opened Common
  import opened Profiles

  const LoginPage := "/admin/login"
  const HomePage := "/"

  /** `auth.getSession()` in the browser; an error comes back as a null session. */
  datatype ClientSession = NoSession | Session(userId: string) | SessionThrows

  /** The by-id profile query answered with an admin row. */
  predicate AdminFound(q: QueryOutcome) {
    q.Answered? && q.answer.Row? && q.answer.row.isAdmin
  }

  class AdminShell {
    var isAdmin: Option<bool>
    var loading: bool
    var navigations: seq<string>

    constructor ()
      ensures isAdmin.None? && loading && navigations == []
    {
      isAdmin := None;
      loading := true;
      navigations := [];
    }

    /** The children are shown, rather than the spinner or nothing. */
    predicate ShowsChildren()
      reads this
    {
      !loading && isAdmin == Some(true)
    }

    /** `checkAdminStatus`, with the table `rows` and the way its query ends. */
    method CheckAdminStatus(session: ClientSession, rows: seq<Profile>, lookupFault: Fault)
      modifies this
      ensures !loading
      ensures session.NoSession? || session.SessionThrows? ==>
        navigations == old(navigations) + [LoginPage] && isAdmin == old(isAdmin)
      ensures session.Session? ==>
        var q := Query(rows, IdColumn, session.userId, lookupFault);
        && (AdminFound(q) ==> isAdmin == Some(true) && navigations == old(navigations))
        && (q.Thrown? ==> navigations == old(navigations) + [LoginPage] && isAdmin == old(isAdmin))
        && (q.Answered? && !AdminFound(q) ==> navigations == old(navigations) + [HomePage] && isAdmin == old(isAdmin))
    {
      match session {
        case NoSession =>
          navigations := navigations + [LoginPage];
        case SessionThrows =>
          navigations := navigations + [LoginPage];
        case Session(uid) =>
          var q := Query(rows, IdColumn, uid, lookupFault);
          if q.Thrown? {
            navigations := navigations + [LoginPage];
          } else if !(q.answer.Row? && q.answer.row.isAdmin) {
            navigations := navigations + [HomePage];
          } else {
            isAdmin := Some(true);
          }
      }
      loading := false;
    }

    /**
     * `handleSignOut`. `rejected` says whether the awaited `signOut` call
     * rejected, which skips the navigation.
     */
    method HandleSignOut(rejected: bool)
      modifies this
      ensures navigations == old(navigations) + (if rejected then [] else [LoginPage])
      ensures isAdmin == old(isAdmin) && loading == old(loading)
    {
      if !rejected {
        navigations := navigations + [LoginPage];
      }
    }
  }

  /**
   * Starting from a fresh shell, a check shows the children exactly when the
   * session's user has an admin profile; in every other case it navigated
   * away.
   */
  method FirstCheck(session: ClientSession, rows: seq<Profile>, lookupFault: Fault)
    returns (shown: bool, pushed: seq<string>)
    ensures shown <==> session.Session? && AdminFound(Query(rows, IdColumn, session.userId, lookupFault))
    ensures shown <==> pushed == []
    ensures !shown ==> pushed == [LoginPage] || pushed == [HomePage]
  {
    var shell := new AdminShell();
    shell.CheckAdminStatus(session, rows, lookupFault);
    shown := shell.ShowsChildren();
    pushed := shell.navigations;
  }
}
