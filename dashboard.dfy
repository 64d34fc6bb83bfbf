/** The dashboard: on each sign-in event it lists the user's generations and
    keeps the six newest and three counters. The clock is a parameter. */
module Dashboard {
  import opened Wrappers
  import opened Records
  import Seqs
  import GenerationHistory

  /** How many records the recent strip shows. */
  const RecentLimit: nat := 6

  /** The three counter cards. */
  datatype DashboardStats = DashboardStats(totalGenerations: nat, thisMonth: nat, favorites: nat)

  /** `allGenerations.slice(0, 6)`: the first six records in the order listed,
      or all of them when there are fewer. */
  function Recent(gs: seq<Generation>): (r: seq<Generation>)
    ensures |r| <= RecentLimit && r <= gs
    ensures |gs| >= RecentLimit ==> |r| == RecentLimit
    ensures |gs| <= RecentLimit ==> r == gs
  {
    if |gs| <= RecentLimit then gs else gs[..RecentLimit]
  }

  /** Created in the month and year of `now`; a record whose timestamp does
      not parse is never counted. */
  predicate CreatedIn(now: YearMonth, g: Generation)
  {
    g.created == Some(now)
  }

  /** The counters over the full list. Neither the month nor the favourite
      counter can exceed the total. */
  function ComputeStats(gs: seq<Generation>, now: YearMonth): (s: DashboardStats)
    ensures s.totalGenerations == |gs|
    ensures s.thisMonth <= s.totalGenerations
    ensures s.favorites <= s.totalGenerations
  {
    DashboardStats(|gs|, Seqs.Count(gs, g => CreatedIn(now, g)), Seqs.Count(gs, IsFavorite))
  }

  /** The dashboard and the history page agree on the number of records and
      of favourites. */
  lemma AgreesWithHistory(gs: seq<Generation>, now: YearMonth)
    ensures ComputeStats(gs, now).totalGenerations == GenerationHistory.StatsOf(gs).total
    ensures ComputeStats(gs, now).favorites == GenerationHistory.StatsOf(gs).favorites
  {
  }

  /** The month counter counts exactly the positions of the list holding a
      record created in the current month and year, and the favourite counter
      exactly those holding a favourite. */
  lemma ThisMonthCountsExactly(gs: seq<Generation>, now: YearMonth)
    ensures ComputeStats(gs, now).thisMonth == |set i | 0 <= i < |gs| && gs[i].created == Some(now)|
    ensures ComputeStats(gs, now).favorites == |set i | 0 <= i < |gs| && IsFavorite(gs[i])|
  {
    assert Seqs.Positions(gs, g => CreatedIn(now, g)) == set i | 0 <= i < |gs| && gs[i].created == Some(now);
    assert Seqs.Positions(gs, IsFavorite) == set i | 0 <= i < |gs| && IsFavorite(gs[i]);
  }

  /** The component's state: the signed-in user, the recent strip and the counters. */
  datatype DashboardState = DashboardState(user: Option<User>, recent: seq<Generation>, stats: DashboardStats)

  const InitialState := DashboardState(None, [], DashboardStats(0, 0, 0))

  /** The strip and the counters describe one and the same list. */
  ghost predicate Coherent(s: DashboardState)
  {
    exists gs: seq<Generation>, now: YearMonth :: s.recent == Recent(gs) && s.stats == ComputeStats(gs, now)
  }

  /** A coherent state's strip holds the six newest records, or all of them
      when there are fewer, and no counter exceeds the total. */
  lemma CoherentBounds(s: DashboardState)
    requires Coherent(s)
    ensures |s.recent| <= RecentLimit && |s.recent| <= s.stats.totalGenerations
    ensures |s.recent| == RecentLimit || |s.recent| == s.stats.totalGenerations
    ensures s.stats.thisMonth <= s.stats.totalGenerations && s.stats.favorites <= s.stats.totalGenerations
  {
    var gs, now :| s.recent == Recent(gs) && s.stats == ComputeStats(gs, now);
  }

  /** Before any data is loaded, the empty strip and the zero counters
      describe the empty list. */
  lemma InitiallyCoherent()
    ensures Coherent(InitialState)
  {
    assert InitialState.recent == Recent([]) && InitialState.stats == ComputeStats([], YearMonth(0, 1));
  }

  /** `loadDashboardData(userId)`: on a successful list both the strip and
      the counters are replaced; on an error neither is. */
  function LoadDashboardData(s: DashboardState, listed: Result<seq<Generation>>, now: YearMonth): (r: DashboardState)
    ensures r.user == s.user
    ensures listed.Ok? ==> r.recent == Recent(listed.value) && r.stats == ComputeStats(listed.value, now)
    ensures listed.Err? ==> r == s
  {
    match listed
    case Ok(gs) => s.(recent := Recent(gs), stats := ComputeStats(gs, now))
    case Err(_) => s
  }

  /** The `onAuthStateChanged` callback: the user is stored, and the data is
      loaded, from the list for that user's id, only when there is a user. */
  function OnAuthChanged(s: DashboardState, user: Option<User>, list: string -> Result<seq<Generation>>, now: YearMonth): (r: DashboardState)
    ensures r.user == user
    ensures user.Some? ==> r == LoadDashboardData(s.(user := user), list(user.value.id), now)
    ensures user.None? ==> r.recent == s.recent && r.stats == s.stats
  {
    if user.Some? then LoadDashboardData(s.(user := user), list(user.value.id), now)
    else s.(user := user)
  }

  /** Every auth event keeps the strip and the counters describing one list:
      the list just loaded, or the one described before. */
  lemma OnAuthChangedKeepsCoherent(s: DashboardState, user: Option<User>, list: string -> Result<seq<Generation>>, now: YearMonth)
    requires Coherent(s)
    ensures Coherent(OnAuthChanged(s, user, list, now))
  {
    var r := OnAuthChanged(s, user, list, now);
    if user.Some? && list(user.value.id).Ok? {
      var gs := list(user.value.id).value;
      assert r.recent == Recent(gs) && r.stats == ComputeStats(gs, now);
    } else {
      var gs, earlier :| s.recent == Recent(gs) && s.stats == ComputeStats(gs, earlier);
      assert r.recent == Recent(gs) && r.stats == ComputeStats(gs, earlier);
    }
  }
}
