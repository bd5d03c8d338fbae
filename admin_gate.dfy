/**
 * The server-side layout of the admin pages. A request whose own headers
 * carry `x-skip-admin-check: true` is rendered as it is; any other is
 * rendered only for a signed-in user whose profile has `is_admin` set, and
 * sent to the login page otherwise. The layout reads the header from the
 * incoming request, while the middleware sets it only on its response, so
 * the header the layout honours is whatever the client sent. Next.js's `redirect` works by throwing,
 * and the throw lands in the layout's own `catch`, which redirects to the
 * same place; the model gives the one target directly.
 */
module AdminGate {
  import opened Common
  import opened Profiles

  const LoginRedirect := "/admin/login?redirected=true"

  /** `auth.getSession()` on the server. */
  datatype ServerSession = SessionError | NoSession | Session(userId: string) | SessionThrows

  datatype Gate = Children | RedirectTo(path: string)

  /**
   * The layout's decision. `configured` says whether the server client can
   * be created (both environment variables set); when it cannot, creating
   * it throws.
   */
  function ServerGate(skipHeader: Option<string>, configured: bool, session: ServerSession,
                      rows: seq<Profile>, lookupFault: Fault): (g: Gate)
    ensures g.RedirectTo? ==> g.path == LoginRedirect
    ensures skipHeader == Some("true") ==> g == Children
  {
    if skipHeader == Some("true") then Children
    else if !configured then RedirectTo(LoginRedirect)
    else
      match session
      case Session(uid) =>
        (match Query(rows, IdColumn, uid, lookupFault)
         case Answered(Row(p)) => if p.isAdmin then Children else RedirectTo(LoginRedirect)
         case Answered(QueryError(_, _)) => RedirectTo(LoginRedirect)
         case Thrown => RedirectTo(LoginRedirect))
      case _ => RedirectTo(LoginRedirect)
  }

  /**
   * The skip header alone decides: a request carrying it is rendered for
   * any session, signed in or not, admin or not, while the same request
   * without it and with no session goes to the login page.
   */
  lemma SkipHeaderBypassesGate(configured: bool, session: ServerSession, rows: seq<Profile>, lookupFault: Fault)
    ensures ServerGate(Some("true"), configured, session, rows, lookupFault) == Children
    ensures ServerGate(None, configured, NoSession, rows, lookupFault) == RedirectTo(LoginRedirect)
  {
  }

  /** The profile with this id is an admin. */
  predicate IsAdminId(rows: seq<Profile>, id: string) {
    exists p :: p in rows && p.id == id && p.isAdmin
  }

  /**
   * Without the skip header, and with the table answering, the children are
   * rendered exactly for a session whose user's profile is an admin.
   */
  lemma GateAdmitsExactlyAdmins(session: ServerSession, rows: seq<Profile>)
    requires Unique(rows, IdColumn)
    ensures ServerGate(None, true, session, rows, NoFault).Children? <==>
      session.Session? && IsAdminId(rows, session.userId)
  {
    if session.Session? {
      var uid := session.userId;
      UniqueSingle(rows, IdColumn, uid);
      var a := Single(rows, IdColumn, uid);
      if IsAdminId(rows, uid) {
        var p :| p in rows && p.id == uid && p.isAdmin;
        var i :| 0 <= i < |rows| && rows[i] == p;
        var j :| 0 <= j < |rows| && rows[j] == a.row;
        assert i == j;
      }
    }
  }

  /** Every failure of the session or profile lookup ends on the login page. */
  lemma FailuresRedirect(skipHeader: Option<string>, configured: bool, session: ServerSession,
                         rows: seq<Profile>, lookupFault: Fault)
    requires skipHeader != Some("true")
    requires !configured || !session.Session? || lookupFault.Throws? || lookupFault.FailsWith?
    ensures ServerGate(skipHeader, configured, session, rows, lookupFault) == RedirectTo(LoginRedirect)
  {
  }
}
