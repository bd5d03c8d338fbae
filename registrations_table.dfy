/**
 * The admin registrations table. Clicking a column heading toggles the
 * sort; every change of search text or sort refetches the rows with a
 * query whose filter and ordering come from that state; the export button
 * builds the same CSV file as the export card, reporting problems with an
 * alert instead of a banner.
 */
module RegistrationsTable {
  import opened Common
  import opened Profiles
  import opened Csv

  datatype Order = Asc | Desc

  /** The state pair `sortBy`/`sortOrder`. */
  datatype SortKey = SortKey(column: string, order: Order)

  const InitialSort := SortKey("created_at", Desc)

  function Flip(o: Order): (r: Order)
    ensures r != o
  {
    if o == Asc then Desc else Asc
  }

  /** The sort after clicking `column`. */
  function NextSort(s: SortKey, column: string): (r: SortKey)
    ensures r.column == column
    ensures s.column == column ==> r.order != s.order
    ensures s.column != column ==> r.order == Asc
  {
    if s.column == column then s.(order := Flip(s.order)) else SortKey(column, Asc)
  }

  /** Clicking the current column twice gives back the order it had. */
  lemma SortTwiceRestores(s: SortKey)
    ensures NextSort(NextSort(s, s.column), s.column) == s
  {
  }

  /** Clicking a new column twice sorts it descending. */
  lemma NewColumnTwiceDescends(s: SortKey, column: string)
    requires s.column != column
    ensures NextSort(NextSort(s, column), column) == SortKey(column, Desc)
  {
  }

  /** The query sent for the table: an optional `or` filter and the ordering. */
  datatype QueryPlan = QueryPlan(filter: Option<string>, orderBy: string, ascending: bool)

  /** One PostgREST condition "column matches %q% ignoring case". */
  function IlikeClause(column: string, q: string): string {
    column + ".ilike.%" + q + "%"
  }

  /** The query `fetchRegistrations` sends for a search text and a sort. */
  function PlanQuery(searchQuery: string, s: SortKey): (plan: QueryPlan)
    ensures plan.filter.Some? <==> searchQuery != ""
    ensures plan.orderBy == s.column
    ensures plan.ascending <==> s.order == Asc
  {
    QueryPlan(
      if searchQuery != "" then
        Some(IlikeClause("full_name", searchQuery) + "," + IlikeClause("email", searchQuery)
             + "," + IlikeClause("university", searchQuery))
      else None,
      s.column,
      s.order == Asc)
  }

  /**
   * The filter is three `ilike` conditions, on name, email and university,
   * each with the search text spliced in as it is. With no comma in the
   * text, PostgREST reads exactly those three conditions.
   */
  lemma FilterClauses(searchQuery: string, s: SortKey)
    requires searchQuery != "" && ',' !in searchQuery
    ensures Split(PlanQuery(searchQuery, s).filter.value, ',') ==
      [IlikeClause("full_name", searchQuery),
       IlikeClause("email", searchQuery),
       IlikeClause("university", searchQuery)]
  {
    var q := searchQuery;
    var c0, c1, c2 := IlikeClause("full_name", q), IlikeClause("email", q), IlikeClause("university", q);
    assert "," == [','];
    JoinThree(c0, c1, c2, ',');
    assert c0 + [','] + c1 + [','] + c2 == c0 + [','] + (c1 + [','] + c2);
    ClauseAvoids("full_name", q);
    ClauseAvoids("email", q);
    ClauseAvoids("university", q);
    SplitJoin([c0, c1, c2], ',');
  }

  /**
   * A search text with a comma breaks the filter into more than three
   * conditions, so the three `ilike` clauses are read as written exactly
   * when the text has no comma.
   */
  lemma CommaBreaksClauses(searchQuery: string, s: SortKey)
    requires ',' in searchQuery
    ensures |Split(PlanQuery(searchQuery, s).filter.value, ',')| > 3
  {
    var q := searchQuery;
    var f := PlanQuery(q, s).filter.value;
    SplitCount(f, ',');
    ClauseCommas("full_name", q);
    ClauseCommas("email", q);
    ClauseCommas("university", q);
    assert multiset(q)[','] >= 1;
  }

  /** A condition holds the commas of its column name and text, and no others. */
  lemma ClauseCommas(column: string, q: string)
    ensures multiset(IlikeClause(column, q))[','] == multiset(column)[','] + multiset(q)[',']
  {
    assert multiset(".ilike.%")[','] == 0 && multiset("%")[','] == 0;
  }

  /** The filter reads as the three intended conditions exactly when the search text has no comma. */
  lemma FilterSplitsIntoClauses(searchQuery: string, s: SortKey)
    requires searchQuery != ""
    ensures Split(PlanQuery(searchQuery, s).filter.value, ',') ==
      [IlikeClause("full_name", searchQuery),
       IlikeClause("email", searchQuery),
       IlikeClause("university", searchQuery)]
      <==> ',' !in searchQuery
  {
    if ',' in searchQuery {
      CommaBreaksClauses(searchQuery, s);
    } else {
      FilterClauses(searchQuery, s);
    }
  }

  /** A condition on a comma-free column name and text holds no comma. */
  lemma ClauseAvoids(column: string, q: string)
    requires ',' !in column && ',' !in q
    ensures ',' !in IlikeClause(column, q)
  {
    assert ',' !in ".ilike.%" && ',' !in "%";
  }

  lemma JoinThree(c0: string, c1: string, c2: string, sep: char)
    ensures Join([c0, c1, c2], sep) == c0 + [sep] + (c1 + [sep] + c2)
  {
    assert [c0, c1, c2][1..] == [c1, c2];
    assert [c1, c2][1..] == [c2];
    assert Join([c2], sep) == c2;
    assert Join([c1, c2], sep) == c1 + [sep] + c2;
  }

  /** How the table's query ends: its `data` (null when it failed), or an exception. */
  datatype TableFetch = Returned(data: Option<seq<Profile>>) | Threw

  /** What the table's export button does: an alert, or the download of a CSV file. */
  datatype ExportOutcome = Alert(text: string) | Download(content: string)

  const AlertPrefix := "Error exporting data: "
  const NoData := "No data to export"
  const ExportUnexpected := "An unexpected error occurred during export"

  /** The table's `handleExport`: same file as the export card, problems shown by `alert`. */
  function TableExport(fetch: Fetch, localeDate: string -> string): (r: ExportOutcome)
    ensures r.Download? <==> HasRows(fetch)
    ensures r.Download? ==> r.content == Content(fetch.data.value, localeDate)
    ensures fetch.FetchFailed? ==> r == Alert(AlertPrefix + fetch.message)
    ensures fetch.Fetched? && !HasRows(fetch) ==> r == Alert(NoData)
    ensures fetch.FetchThrew? ==> r == Alert(ExportUnexpected)
  {
    match fetch
    case FetchFailed(m) => Alert(AlertPrefix + m)
    case Fetched(data) =>
      if data.None? || |data.value| == 0 then Alert(NoData)
      else Download(Content(data.value, localeDate))
    case FetchThrew => Alert(ExportUnexpected)
  }

  class Table {
    var registrations: seq<Profile>
    var loading: bool
    var searchQuery: string
    var sortBy: string
    var sortOrder: Order

    function Sort(): SortKey
      reads this
    {
      SortKey(sortBy, sortOrder)
    }

    constructor ()
      ensures registrations == [] && loading && searchQuery == ""
      ensures Sort() == InitialSort
    {
      registrations := [];
      loading := true;
      searchQuery := "";
      sortBy := "created_at";
      sortOrder := Desc;
    }

    /** `handleSort`: only the sort pair changes. */
    method HandleSort(column: string)
      modifies this
      ensures Sort() == NextSort(old(Sort()), column)
      ensures registrations == old(registrations) && loading == old(loading)
      ensures searchQuery == old(searchQuery)
    {
      if sortBy == column {
        sortOrder := if sortOrder == Asc then Desc else Asc;
      } else {
        sortBy := column;
        sortOrder := Asc;
      }
    }

    /**
     * `fetchRegistrations`. `plan` is the query sent; `answer` is how it
     * ends. A failed query has null data, which leaves the table empty; an
     * exception leaves the rows as they were.
     */
    method FetchRegistrations(answer: TableFetch) returns (plan: QueryPlan)
      modifies this
      ensures plan == PlanQuery(searchQuery, Sort())
      ensures !loading
      ensures answer.Returned? && answer.data.None? ==> registrations == []
      ensures answer.Returned? && answer.data.Some? ==> registrations == answer.data.value
      ensures answer.Threw? ==> registrations == old(registrations)
      ensures searchQuery == old(searchQuery) && Sort() == old(Sort())
    {
      loading := true;
      var filter: Option<string> := None;
      if searchQuery != "" {
        filter := Some(IlikeClause("full_name", searchQuery) + "," + IlikeClause("email", searchQuery)
                       + "," + IlikeClause("university", searchQuery));
      }
      plan := QueryPlan(filter, sortBy, sortOrder == Asc);
      match answer {
        case Returned(data) =>
          registrations := data.GetOr([]);
        case Threw =>
      }
      loading := false;
    }
  }
}
