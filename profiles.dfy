/**
 * The `profiles` table (one row per registrant) and the hosted backend as
 * the rest of the model sees it: a set of authentication user ids and the
 * rows of that table. Queries that end in `.single()` are modelled by
 * `Single`: exactly one matching row answers with that row, any other
 * number of rows answers with PostgREST's "PGRST116" error. A fault that
 * the backend may raise instead of answering is an input of the model.
 */
module Profiles {
  import opened Common

  /** A row of table `profiles`. */
  datatype Profile = Profile(
    id: string,
    fullName: Option<string>,
    email: string,
    phoneNumber: Option<string>,
    facebookUrl: Option<string>,
    university: Option<string>,
    ctfExperience: bool,
    teamPreference: string,
    isAdmin: bool,
    createdAt: string)

  /** The columns `id, email, full_name` that the duplicate-email lookup selects. */
  datatype ProfileSummary = ProfileSummary(id: string, email: string, fullName: Option<string>)

  function Summary(p: Profile): ProfileSummary {
    ProfileSummary(p.id, p.email, p.fullName)
  }

  /** The state of the hosted backend: authentication users and profile rows. */
  datatype Store = Store(authUsers: set<string>, profiles: seq<Profile>)

  /** The two columns the core filters `profiles` on with `.eq`. */
  datatype Column = IdColumn | EmailColumn

  /** The value of a row in a column. */
  function Cell(p: Profile, c: Column): string {
    match c
    case IdColumn => p.id
    case EmailColumn => p.email
  }

  /** `.eq(column, v)`: the rows whose column `c` equals `v`, in table order. */
  function RowsWhere(rows: seq<Profile>, c: Column, v: string): (r: seq<Profile>)
    ensures |r| <= |rows|
    ensures forall p :: p in r ==> p in rows && Cell(p, c) == v
    ensures forall p :: p in rows && Cell(p, c) == v ==> p in r
  {
    if rows == [] then []
    else if Cell(rows[0], c) == v then [rows[0]] + RowsWhere(rows[1..], c, v)
    else RowsWhere(rows[1..], c, v)
  }

  /** No two rows share a value in column `c`. */
  predicate Unique(rows: seq<Profile>, c: Column) {
    forall i, j :: 0 <= i < j < |rows| ==> Cell(rows[i], c) != Cell(rows[j], c)
  }

  /** The answer to a query the backend did not fault on. */
  datatype Answer = Row(row: Profile) | QueryError(code: string, message: string)

  /** PostgREST's code for "`.single()` found zero rows or more than one". */
  const NoSingleRow: string := "PGRST116"

  /** `.select(...).eq(column, v).single()` answered from the table. */
  function Single(rows: seq<Profile>, c: Column, v: string): (a: Answer)
    ensures a.Row? <==> |RowsWhere(rows, c, v)| == 1
    ensures a.Row? ==> a.row in rows && Cell(a.row, c) == v
    ensures a.QueryError? ==> a.code == NoSingleRow
  {
    var matches := RowsWhere(rows, c, v);
    if |matches| == 1 then Row(matches[0])
    else QueryError(NoSingleRow, "JSON object requested, multiple (or no) rows returned")
  }

  /** How a backend call may end other than by answering from the table. */
  datatype Fault = NoFault | FailsWith(code: string, message: string) | Throws

  /** What a `.single()` query gives back to the caller. */
  datatype QueryOutcome = Answered(answer: Answer) | Thrown

  /** A `.single()` query on column `c` as the caller sees it. */
  function Query(rows: seq<Profile>, c: Column, v: string, fault: Fault): (q: QueryOutcome)
    ensures fault.NoFault? ==> q == Answered(Single(rows, c, v))
    ensures fault.Throws? <==> q.Thrown?
  {
    match fault
    case NoFault => Answered(Single(rows, c, v))
    case FailsWith(code, message) => Answered(QueryError(code, message))
    case Throws => Thrown
  }

  /** With unique values in column `c`, a row has `v` there exactly when `.single()` finds one. */
  lemma UniqueSingle(rows: seq<Profile>, c: Column, v: string)
    requires Unique(rows, c)
    ensures (exists p :: p in rows && Cell(p, c) == v) <==> Single(rows, c, v).Row?
  {
    CountWhenUnique(rows, c, v);
  }

  /** With unique values in column `c`, at most one row matches `v`, and one does if some row has it. */
  lemma {:induction false} CountWhenUnique(rows: seq<Profile>, c: Column, v: string)
    requires Unique(rows, c)
    ensures |RowsWhere(rows, c, v)| <= 1
    ensures (exists p :: p in rows && Cell(p, c) == v) <==> |RowsWhere(rows, c, v)| == 1
    decreases |rows|
  {
    if rows != [] {
      var tail := rows[1..];
      assert Unique(tail, c) by {
        forall i, j | 0 <= i < j < |tail| ensures Cell(tail[i], c) != Cell(tail[j], c) {
          assert tail[i] == rows[i + 1] && tail[j] == rows[j + 1];
        }
      }
      CountWhenUnique(tail, c, v);
      if Cell(rows[0], c) == v {
        forall p | p in tail ensures Cell(p, c) != v {
          var k :| 0 <= k < |tail| && tail[k] == p;
          assert rows[k + 1] == p;
        }
        assert RowsWhere(tail, c, v) == [];
      }
      assert forall p :: p in rows ==> p == rows[0] || p in tail;
    }
  }
}
