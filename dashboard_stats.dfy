/**
 * The admin dashboard. One load runs five queries and derives six counters
 * from their results, each falling back to 0 when its result is missing;
 * the profile list below the counters shows "N/A" for an empty value.
 * The load is modelled as a function from the page state and the query
 * results to the next page state.
 */
module DashboardStats {
  import opened Common

  /** The six counters; all start at 0. */
  datatype Stats = Stats(
    totalRegistrations: nat,
    withCtfExperience: nat,
    soloPreference: nat,
    teamPreference: nat,
    onlineParticipation: nat,
    onsiteParticipation: nat)

  const InitialStats := Stats(0, 0, 0, 0, 0, 0)

  /** The columns of a profile the dashboard lists. */
  datatype ListedProfile = ListedProfile(
    id: string,
    fullName: Option<string>,
    email: Option<string>,
    ctfExperience: bool,
    teamPreference: Option<string>,
    participationMode: Option<string>)

  /**
   * What the five queries give back. `ctfRows` is the number of rows the
   * `ctf_experience = true` query returned; the column lists hold one value
   * per row; a `None` is a missing (null) result.
   */
  datatype Results = Results(
    totalCount: Option<nat>,
    ctfRows: Option<nat>,
    teamData: Option<seq<Option<string>>>,
    participationData: Option<seq<Option<string>>>,
    profilesData: Option<seq<ListedProfile>>,
    profilesFailed: bool)

  /** How the load ends: every query answered, or an exception was thrown. */
  datatype Load = Completed(results: Results) | Threw

  datatype Page = Page(stats: Stats, profiles: seq<ListedProfile>, loading: bool)

  const InitialPage := Page(InitialStats, [], true)

  /** `filter((item) => item.column === v).length`. */
  function Count(xs: seq<Option<string>>, v: string): nat
    decreases |xs|
  {
    if |xs| == 0 then 0
    else (if xs[0] == Some(v) then 1 else 0) + Count(xs[1..], v)
  }

  /**
   * `list?.filter(...).length || 0`: the number of rows holding `v`, or 0
   * when the query returned no data (a length of 0 falls back to 0 as well).
   */
  function CountOr0(xs: Option<seq<Option<string>>>, v: string): (n: nat)
    ensures xs.None? ==> n == 0
    ensures xs.Some? ==> n == multiset(xs.value)[Some(v)]
  {
    if xs.None? then 0 else CountIsMultiplicity(xs.value, v); Count(xs.value, v)
  }

  /**
   * The counters one completed load sets: the exact total, the rows of the
   * experience query, and how many rows of the preference and mode queries
   * hold each value; a query that returned no data counts 0.
   */
  function ComputeStats(r: Results): (s: Stats)
    ensures s.totalRegistrations == r.totalCount.GetOr(0)
    ensures s.withCtfExperience == r.ctfRows.GetOr(0)
    ensures r.teamData.None? ==> s.soloPreference == 0 && s.teamPreference == 0
    ensures r.teamData.Some? ==>
      && s.soloPreference == multiset(r.teamData.value)[Some("solo")]
      && s.teamPreference == multiset(r.teamData.value)[Some("team")]
    ensures r.participationData.None? ==> s.onlineParticipation == 0 && s.onsiteParticipation == 0
    ensures r.participationData.Some? ==>
      && s.onlineParticipation == multiset(r.participationData.value)[Some("online")]
      && s.onsiteParticipation == multiset(r.participationData.value)[Some("onsite")]
  {
    Stats(
      r.totalCount.GetOr(0),
      r.ctfRows.GetOr(0),
      CountOr0(r.teamData, "solo"),
      CountOr0(r.teamData, "team"),
      CountOr0(r.participationData, "online"),
      CountOr0(r.participationData, "onsite"))
  }

  /** `fetchData`: a completed load replaces the counters, and the list unless its query failed. */
  function FetchData(page: Page, load: Load): (next: Page)
    ensures !next.loading
    ensures load.Threw? ==> next.stats == page.stats && next.profiles == page.profiles
    ensures load.Completed? ==> next.stats == ComputeStats(load.results)
    ensures load.Completed? && load.results.profilesFailed ==> next.profiles == page.profiles
    ensures load.Completed? && !load.results.profilesFailed ==>
      next.profiles == load.results.profilesData.GetOr([])
  {
    match load
    case Threw => page.(loading := false)
    case Completed(r) =>
      Page(ComputeStats(r),
           if r.profilesFailed then page.profiles else r.profilesData.GetOr([]),
           false)
  }

  /** A count is the number of occurrences of the value in the list. */
  lemma {:induction false} CountIsMultiplicity(xs: seq<Option<string>>, v: string)
    ensures Count(xs, v) == multiset(xs)[Some(v)]
    decreases |xs|
  {
    if |xs| > 0 {
      CountIsMultiplicity(xs[1..], v);
      assert xs == [xs[0]] + xs[1..];
    }
  }

  /** Counts of two different values never add up to more than the list's length. */
  lemma {:induction false} DisjointCountsBounded(xs: seq<Option<string>>, a: string, b: string)
    requires a != b
    ensures Count(xs, a) + Count(xs, b) <= |xs|
    decreases |xs|
  {
    if |xs| > 0 {
      DisjointCountsBounded(xs[1..], a, b);
    }
  }

  /** Solo plus team is at most the rows of the team query; online plus onsite likewise. */
  lemma PreferenceCountsBounded(r: Results)
    ensures r.teamData.Some? ==>
      ComputeStats(r).soloPreference + ComputeStats(r).teamPreference <= |r.teamData.value|
    ensures r.participationData.Some? ==>
      ComputeStats(r).onlineParticipation + ComputeStats(r).onsiteParticipation <= |r.participationData.value|
  {
    if r.teamData.Some? {
      DisjointCountsBounded(r.teamData.value, "solo", "team");
    }
    if r.participationData.Some? {
      DisjointCountsBounded(r.participationData.value, "online", "onsite");
    }
  }

  /** A null or empty value is shown as "N/A", anything else as it is. */
  function Display(v: Option<string>): (text: string)
    ensures text != ""
    ensures v.Some? && v.value != "" ==> text == v.value
    ensures v.None? || v.value == "" ==> text == "N/A"
  {
    OptOrElse(v, "N/A")
  }

  function YesNo(b: bool): (text: string)
    ensures text == "Yes" <==> b
    ensures text == "No" <==> !b
  {
    if b then "Yes" else "No"
  }

  /** The six cells of a listed profile's table row. */
  function Row(p: ListedProfile): (cells: seq<string>)
    ensures |cells| == 6 && cells[0] == p.id
    ensures forall i :: 1 <= i < 6 ==> cells[i] != ""
  {
    [p.id, Display(p.fullName), Display(p.email), YesNo(p.ctfExperience),
     Display(p.teamPreference), Display(p.participationMode)]
  }
}
