/**
 * The admin settings page: granting admin rights by email. The handler
 * looks the profile up with `.single()`, refuses an unknown email and an
 * existing admin, and otherwise sets `is_admin` on every row with that
 * email. `MakeAdmin` states one run as a function of the table and the
 * backend's answers; the page's method is proved to follow it.
 */
module AdminSettings {
  import opened Common
  import opened Profiles
  import Registration

  const NotFound := "User not found with this email address"
  const AlreadyAdmin := "This user is already an admin"
  const UpdatePrefix := "Error updating user: "
  const Granted := "User has been granted admin privileges"
  const Unexpected := "An unexpected error occurred"

  /** How the `update({ is_admin: true })` call ends. */
  datatype UpdateOutcome = Updated | UpdateFailed(message: string) | UpdateThrows

  /** `update({ is_admin: true }).eq("email", email)` applied to the table. */
  function GrantAdmin(rows: seq<Profile>, email: string): (r: seq<Profile>)
    ensures |r| == |rows|
    ensures forall i :: 0 <= i < |rows| && rows[i].email == email ==> r[i] == rows[i].(isAdmin := true)
    ensures forall i :: 0 <= i < |rows| && rows[i].email != email ==> r[i] == rows[i]
    decreases |rows|
  {
    if |rows| == 0 then []
    else
      [if rows[0].email == email then rows[0].(isAdmin := true) else rows[0]]
      + GrantAdmin(rows[1..], email)
  }

  /** One run of `handleMakeAdmin`: the banner, the table afterwards, and whether the input is cleared. */
  datatype Grant = Grant(message: Message, rows: seq<Profile>, clearEmail: bool)

  function MakeAdmin(rows: seq<Profile>, email: string, lookupFault: Fault, update: UpdateOutcome): (g: Grant)
    ensures g.clearEmail <==> g.message.kind == Success
    ensures g.clearEmail ==> g.rows == GrantAdmin(rows, email) && g.message.text == Granted
    ensures !g.clearEmail ==> g.rows == rows
    ensures g.clearEmail <==>
      lookupFault.NoFault? && Single(rows, EmailColumn, email).Row? && !Single(rows, EmailColumn, email).row.isAdmin && update.Updated?
    ensures lookupFault.FailsWith? ==> g.message == ErrorMessage(NotFound)
    ensures lookupFault.Throws? ==> g.message == ErrorMessage(Unexpected)
  {
    match Query(rows, EmailColumn, email, lookupFault)
    case Thrown => Grant(ErrorMessage(Unexpected), rows, false)
    case Answered(QueryError(_, _)) => Grant(ErrorMessage(NotFound), rows, false)
    case Answered(Row(p)) =>
      if p.isAdmin then Grant(ErrorMessage(AlreadyAdmin), rows, false)
      else
        match update
        case Updated => Grant(SuccessMessage(Granted), GrantAdmin(rows, email), true)
        case UpdateFailed(m) => Grant(ErrorMessage(UpdatePrefix + m), rows, false)
        case UpdateThrows => Grant(ErrorMessage(Unexpected), rows, false)
  }

  /** An email that does not pick out exactly one row is reported as unknown and nothing is updated. */
  lemma UnknownEmailNotUpdated(rows: seq<Profile>, email: string, update: UpdateOutcome)
    requires |RowsWhere(rows, EmailColumn, email)| != 1
    ensures MakeAdmin(rows, email, NoFault, update) == Grant(ErrorMessage(NotFound), rows, false)
  {
  }

  /** An admin is reported as one and nothing is updated. */
  lemma ExistingAdminNotUpdated(rows: seq<Profile>, email: string, update: UpdateOutcome)
    requires Single(rows, EmailColumn, email).Row? && Single(rows, EmailColumn, email).row.isAdmin
    ensures MakeAdmin(rows, email, NoFault, update) == Grant(ErrorMessage(AlreadyAdmin), rows, false)
  {
  }

  /** Granting twice changes the table no more than granting once. */
  lemma {:induction false} GrantIdempotent(rows: seq<Profile>, email: string)
    ensures GrantAdmin(GrantAdmin(rows, email), email) == GrantAdmin(rows, email)
  {
    var once := GrantAdmin(rows, email);
    var twice := GrantAdmin(once, email);
    forall i | 0 <= i < |rows| ensures twice[i] == once[i] {
      assert once[i].email == rows[i].email;
    }
  }

  /** The grant keeps the number of rows with the email. */
  lemma {:induction false} GrantKeepsMatches(rows: seq<Profile>, email: string)
    ensures |RowsWhere(GrantAdmin(rows, email), EmailColumn, email)| == |RowsWhere(rows, EmailColumn, email)|
    decreases |rows|
  {
    if |rows| > 0 {
      var g := GrantAdmin(rows, email);
      GrantKeepsMatches(rows[1..], email);
      assert g[1..] == GrantAdmin(rows[1..], email);
      assert g[0].email == rows[0].email;
    }
  }

  /**
   * After a successful grant, asking again for the same email reports
   * "already an admin" and leaves the table as it is.
   */
  lemma SecondGrantAlreadyAdmin(rows: seq<Profile>, email: string, first: UpdateOutcome, second: UpdateOutcome)
    requires MakeAdmin(rows, email, NoFault, first).clearEmail
    ensures var after := MakeAdmin(rows, email, NoFault, first).rows;
      MakeAdmin(after, email, NoFault, second) == Grant(ErrorMessage(AlreadyAdmin), after, false)
  {
    var after := GrantAdmin(rows, email);
    GrantKeepsMatches(rows, email);
    var a := Single(after, EmailColumn, email);
    assert a.Row?;
    var k :| 0 <= k < |after| && after[k] == a.row;
    assert rows[k].email == email;
  }

  class SettingsPage {
    var email: string
    var loading: bool
    var message: Option<Message>

    constructor ()
      ensures email == "" && !loading && message.None?
    {
      email := "";
      loading := false;
      message := None;
    }

    /** `handleMakeAdmin`, run against the backend `db`. */
    method HandleMakeAdmin(db: Registration.Backend, lookupFault: Fault, update: UpdateOutcome)
      modifies this, db
      ensures var g := MakeAdmin(old(db.profiles), old(email), lookupFault, update);
        && message == Some(g.message)
        && db.profiles == g.rows
        && email == (if g.clearEmail then "" else old(email))
      ensures !loading && db.authUsers == old(db.authUsers)
    {
      loading := true;
      message := None;
      var q := Query(db.profiles, EmailColumn, email, lookupFault);
      if q.Thrown? {
        message := Some(ErrorMessage(Unexpected));
      } else if q.answer.QueryError? {
        message := Some(ErrorMessage(NotFound));
      } else if q.answer.row.isAdmin {
        message := Some(ErrorMessage(AlreadyAdmin));
      } else if update.UpdateThrows? {
        message := Some(ErrorMessage(Unexpected));
      } else if update.UpdateFailed? {
        message := Some(ErrorMessage(UpdatePrefix + update.message));
      } else {
        db.profiles := GrantAdmin(db.profiles, email);
        message := Some(SuccessMessage(Granted));
        email := "";
      }
      loading := false;
    }
  }
}
