/**
 * The league table, the post-processing of fetched results and the
 * goalscorer tally of the TheSportsDB client. What the network returns is
 * an input here: a table's rows, each season's events, each match's scorer
 * strings.
 */
module Utils {
  import opened Wrappers
  import opened Text
  import opened Arrays

  datatype League = League(id: string, name: string, country: string, season: string)

  /** The five supported leagues, by the key a request names them with. */
  const Leagues: map<string, League> := map[
    "premier-league" := League("4328", "English Premier League", "England", "2025-2026"),
    "la-liga" := League("4335", "Spanish La Liga", "Spain", "2025-2026"),
    "bundesliga" := League("4331", "German Bundesliga", "Germany", "2025-2026"),
    "serie-a" := League("4332", "Italian Serie A", "Italy", "2025-2026"),
    "ligue-1" := League("4334", "French Ligue 1", "France", "2025-2026")
  ]

  /** An upcoming match as the fixture list reports it. */
  datatype Fixture = Fixture(id: string, homeTeam: string, awayTeam: string, date: string, venue: string)

  // ----- fetchCurrentStandings -----

  /**
   * A row of the league table as the API sends it. Each count is what
   * `parseInt` reads from the field, `None` when that is NaN.
   */
  datatype TableRow = TableRow(
    intRank: int, strTeam: string,
    intPlayed: Option<int>, intWin: Option<int>, intDraw: Option<int>, intLoss: Option<int>,
    intGoalsFor: Option<int>, intGoalsAgainst: Option<int>, intPoints: Option<int>)

  datatype Standing = Standing(
    position: int, team: string, played: int, won: int, drawn: int, lost: int,
    goalsFor: int, goalsAgainst: int, goalDifference: int, points: int, season: string)

  /** `parseInt(x) || 0`: an unreadable count is 0. */
  function CountOr0(x: Option<int>): (n: int)
    ensures x.None? ==> n == 0
    ensures x.Some? ==> n == x.value
  {
    x.GetOr(0)
  }

  /** One row of the mapped table. */
  function StandingOf(row: TableRow, season: string): (s: Standing)
    ensures s.goalDifference == s.goalsFor - s.goalsAgainst
    ensures s.position == row.intRank && s.team == row.strTeam && s.season == season
    ensures s.goalsFor == CountOr0(row.intGoalsFor) && s.goalsAgainst == CountOr0(row.intGoalsAgainst)
  {
    var gf := CountOr0(row.intGoalsFor);
    var ga := CountOr0(row.intGoalsAgainst);
    Standing(row.intRank, row.strTeam, CountOr0(row.intPlayed), CountOr0(row.intWin), CountOr0(row.intDraw),
             CountOr0(row.intLoss), gf, ga, gf - ga, CountOr0(row.intPoints), season)
  }

  function ByRank(row: TableRow): int { row.intRank }

  /** The table sorted by rank, each row mapped; a missing table is the empty list. */
  function Standings(table: Option<seq<TableRow>>, season: string): (r: seq<Standing>)
    ensures table.None? ==> r == []
    ensures table.Some? ==> |r| == |table.value|
    ensures forall i, j :: 0 <= i < j < |r| ==> r[i].position <= r[j].position
    ensures forall i :: 0 <= i < |r| ==> r[i].goalDifference == r[i].goalsFor - r[i].goalsAgainst
    ensures table.Some? ==> forall row :: row in table.value ==> StandingOf(row, season) in r
    ensures table.Some? ==> forall i :: 0 <= i < |r| ==> exists row :: row in table.value && r[i] == StandingOf(row, season)
    ensures table.Some? ==> multiset(r) == multiset(StandingsOf(table.value, season))
  {
    match table
    case None => []
    case Some(rows) =>
      var sorted := SortBy(rows, ByRank);
      SortByMembers(rows, ByRank);
      var r := StandingsOf(sorted, season);
      StandingsOfPermutation(sorted, rows, season);
      assert forall i :: 0 <= i < |r| ==> sorted[i] in rows && r[i] == StandingOf(sorted[i], season);
      assert forall row :: row in rows ==> StandingOf(row, season) in r by {
        forall row | row in rows ensures StandingOf(row, season) in r {
          var i :| 0 <= i < |sorted| && sorted[i] == row;
          assert r[i] == StandingOf(row, season);
        }
      }
      r
  }

  function StandingsOf(rows: seq<TableRow>, season: string): (r: seq<Standing>)
    ensures |r| == |rows| && forall i :: 0 <= i < |rows| ==> r[i] == StandingOf(rows[i], season)
  {
    seq(|rows|, i requires 0 <= i < |rows| => StandingOf(rows[i], season))
  }

  lemma StandingsOfConcat(a: seq<TableRow>, b: seq<TableRow>, season: string)
    ensures StandingsOf(a + b, season) == StandingsOf(a, season) + StandingsOf(b, season)
  {
    var l := StandingsOf(a + b, season);
    var r := StandingsOf(a, season) + StandingsOf(b, season);
    forall i | 0 <= i < |l| ensures l[i] == r[i] {
      if i < |a| { assert (a + b)[i] == a[i]; } else { assert (a + b)[i] == b[i - |a|]; }
    }
  }

  /** Mapping rows that are a permutation of each other gives standings that are a permutation of each other. */
  lemma {:induction false} StandingsOfPermutation(a: seq<TableRow>, b: seq<TableRow>, season: string)
    requires multiset(a) == multiset(b)
    ensures multiset(StandingsOf(a, season)) == multiset(StandingsOf(b, season))
    decreases |a|
  {
    if |a| == 0 {
      assert |b| == |multiset(b)| == 0;
    } else {
      var x := a[0];
      assert x in multiset(b);
      var k :| 0 <= k < |b| && b[k] == x;
      var rest := b[..k] + b[k + 1..];
      assert b == b[..k] + [x] + b[k + 1..];
      assert a == [x] + a[1..];
      assert multiset(b) == multiset(b[..k]) + multiset{x} + multiset(b[k + 1..]);
      assert multiset(a) == multiset{x} + multiset(a[1..]);
      assert multiset(rest) == multiset(b[..k]) + multiset(b[k + 1..]);
      assert multiset(a[1..]) == multiset(a) - multiset{x};
      assert multiset(rest) == multiset(b) - multiset{x};
      StandingsOfPermutation(a[1..], rest, season);
      StandingsOfConcat([x], a[1..], season);
      StandingsOfConcat(b[..k], b[k + 1..], season);
      StandingsOfConcat(b[..k] + [x], b[k + 1..], season);
      StandingsOfConcat(b[..k], [x], season);
    }
  }

  /**
   * `fetchCurrentStandings` after its fetches: the current season's table,
   * or the previous season's when the current one is missing or empty.
   */
  function CurrentStandings(current: Option<seq<TableRow>>, previous: Option<seq<TableRow>>): (r: seq<Standing>)
    ensures current.Some? && |current.value| > 0 ==> r == Standings(current, "2025-2026")
    ensures current.None? || |current.value| == 0 ==> r == Standings(previous, "2024-2025")
  {
    if current.None? || |current.value| == 0 then Standings(previous, "2024-2025")
    else Standings(current, "2025-2026")
  }

  // ----- fetchRecentResults -----

  /** A score field of an event: JSON null, or present with what `parseInt` reads from it. */
  datatype ScoreField = Null | Present(parsed: Option<int>)

  /** An event of a season as the API sends it; dates are day numbers. */
  datatype Event = Event(
    idEvent: string, dateEvent: int, strHomeTeam: string, strAwayTeam: string,
    intHomeScore: ScoreField, intAwayScore: ScoreField, strVenue: Option<string>)

  datatype MatchResult = MatchResult(
    id: string, date: int, homeTeam: string, awayTeam: string, homeScore: int, awayScore: int,
    venue: string, league: string, country: string, season: string)

  /** The seasons searched, newest first. */
  const Seasons: seq<string> := ["2025-2026", "2024-2025"]

  /** Once this many results are collected no further season is fetched. */
  const Enough: int := 100

  /** A completed match: neither score is null. */
  predicate Completed(e: Event) {
    e.intHomeScore.Present? && e.intAwayScore.Present?
  }

  function ScoreOf(f: ScoreField): int {
    if f.Present? then CountOr0(f.parsed) else 0
  }

  function ResultOf(e: Event, league: League, season: string): (m: MatchResult)
    ensures m.id == e.idEvent && m.date == e.dateEvent
    ensures m.homeTeam == e.strHomeTeam && m.awayTeam == e.strAwayTeam
    ensures Completed(e) ==> m.homeScore == CountOr0(e.intHomeScore.parsed) && m.awayScore == CountOr0(e.intAwayScore.parsed)
    ensures m.venue == if e.strVenue.None? || e.strVenue.value == "" then "TBD" else e.strVenue.value
    ensures m.league == league.name && m.country == league.country && m.season == season
  {
    var venue := if e.strVenue.None? || e.strVenue.value == "" then "TBD" else e.strVenue.value;
    MatchResult(e.idEvent, e.dateEvent, e.strHomeTeam, e.strAwayTeam, ScoreOf(e.intHomeScore), ScoreOf(e.intAwayScore),
                venue, league.name, league.country, season)
  }

  /** The sort key of `(a, b) => date(b) - date(a)`: newest first. */
  function EventNewest(e: Event): int { -e.dateEvent }
  function ResultNewest(m: MatchResult): int { -m.date }

  /** One season's completed events, newest first, mapped to results. */
  function SeasonResults(events: seq<Event>, league: League, season: string): seq<MatchResult> {
    ResultsOf(SortBy(Filter(events, Completed), EventNewest), league, season)
  }

  /**
   * A season's results are newest first, one per completed event: each is
   * one of its completed events, and each completed event gives one.
   */
  lemma SeasonResultsShape(events: seq<Event>, league: League, season: string)
    ensures var r := SeasonResults(events, league, season);
      && |r| == |Filter(events, Completed)| <= |events|
      && (forall i, j :: 0 <= i < j < |r| ==> r[i].date >= r[j].date)
      && (forall m :: m in r ==> exists e :: e in events && Completed(e) && m == ResultOf(e, league, season))
      && (forall e :: e in events && Completed(e) ==> ResultOf(e, league, season) in r)
  {
    var done := Filter(events, Completed);
    var sorted := SortBy(done, EventNewest);
    SortByMembers(done, EventNewest);
    var r := ResultsOf(sorted, league, season);
    forall e | e in events && Completed(e) ensures ResultOf(e, league, season) in r {
      assert e in sorted;
      var i :| 0 <= i < |sorted| && sorted[i] == e;
      assert r[i] == ResultOf(e, league, season);
    }
    forall i, j | 0 <= i < j < |r| ensures r[i].date >= r[j].date {
      assert EventNewest(sorted[i]) <= EventNewest(sorted[j]);
    }
    forall m | m in r ensures exists e :: e in events && Completed(e) && m == ResultOf(e, league, season) {
      var i :| 0 <= i < |r| && r[i] == m;
      assert sorted[i] in done;
    }
  }

  function ResultsOf(events: seq<Event>, league: League, season: string): (r: seq<MatchResult>)
    ensures |r| == |events| && forall i :: 0 <= i < |events| ==> r[i] == ResultOf(events[i], league, season)
  {
    seq(|events|, i requires 0 <= i < |events| => ResultOf(events[i], league, season))
  }

  /** The events fetched for a season; a season that returned no events is absent. */
  function EventsOf(fetched: map<string, seq<Event>>, season: string): seq<Event> {
    if season in fetched then fetched[season] else []
  }

  /** What the seasons loop has collected after `n` rounds, the early exit included. */
  function Collected(fetched: map<string, seq<Event>>, league: League, n: nat): seq<MatchResult>
    requires n <= |Seasons|
  {
    if n == 0 then []
    else
      var before := Collected(fetched, league, n - 1);
      if |before| >= Enough then before
      else before + SeasonResults(EventsOf(fetched, Seasons[n - 1]), league, Seasons[n - 1])
  }

  /** Once enough results are collected, later rounds add nothing. */
  lemma {:induction false} CollectedStops(fetched: map<string, seq<Event>>, league: League, n: nat, m: nat)
    requires n <= m <= |Seasons| && |Collected(fetched, league, n)| >= Enough
    ensures Collected(fetched, league, m) == Collected(fetched, league, n)
    decreases m
  {
    if m > n {
      CollectedStops(fetched, league, n, m - 1);
    }
  }

  /** Every collected result is a completed event of one of the searched seasons. */
  lemma {:induction false} CollectedFromSeasons(fetched: map<string, seq<Event>>, league: League, n: nat)
    requires n <= |Seasons|
    ensures forall m :: m in Collected(fetched, league, n) ==>
      exists k, e :: 0 <= k < n && e in EventsOf(fetched, Seasons[k]) && Completed(e) && m == ResultOf(e, league, Seasons[k])
  {
    if n > 0 {
      CollectedFromSeasons(fetched, league, n - 1);
      var before := Collected(fetched, league, n - 1);
      if |before| < Enough {
        var added := SeasonResults(EventsOf(fetched, Seasons[n - 1]), league, Seasons[n - 1]);
        SeasonResultsShape(EventsOf(fetched, Seasons[n - 1]), league, Seasons[n - 1]);
        forall m | m in Collected(fetched, league, n)
          ensures exists k, e :: 0 <= k < n && e in EventsOf(fetched, Seasons[k]) && Completed(e) && m == ResultOf(e, league, Seasons[k])
        {
          if m !in before {
            assert m in added;
            var e :| e in EventsOf(fetched, Seasons[n - 1]) && Completed(e) && m == ResultOf(e, league, Seasons[n - 1]);
            assert 0 <= n - 1 < n;
          }
        }
      }
    }
  }

  /** How many results `fetchRecentResults` keeps for a caller asking for `minMatches`. */
  function Cap(minMatches: int): int {
    if minMatches * 4 >= 50 then minMatches * 4 else 50
  }

  /** `all.sort((a, b) => date(b) - date(a))` followed by `slice(0, cap)`. */
  function NewestFirst(all: seq<MatchResult>, cap: int): seq<MatchResult> {
    Take(SortBy(all, ResultNewest), cap)
  }

  /** What `fetchRecentResults` returns: all collected results newest first, cut to the cap. */
  function RecentResults(fetched: map<string, seq<Event>>, league: League, minMatches: int): seq<MatchResult> {
    NewestFirst(Collected(fetched, league, |Seasons|), Cap(minMatches))
  }

  /** A season the loop reached while short of enough results: round k ran on it. */
  predicate Searched(fetched: map<string, seq<Event>>, league: League, k: nat)
    requires k < |Seasons|
  {
    |Collected(fetched, league, k)| < Enough
  }

  /** A round adds to what was collected; it never takes anything away. */
  lemma {:induction false} CollectedGrows(fetched: map<string, seq<Event>>, league: League, k: nat, n: nat)
    requires k <= n <= |Seasons|
    ensures forall m :: m in Collected(fetched, league, k) ==> m in Collected(fetched, league, n)
    decreases n
  {
    if k < n {
      CollectedGrows(fetched, league, k, n - 1);
    }
  }

  /** Every completed event of a season the loop searched is collected. */
  lemma CollectedKeepsCompleted(fetched: map<string, seq<Event>>, league: League, k: nat, e: Event)
    requires k < |Seasons| && Searched(fetched, league, k)
    requires e in EventsOf(fetched, Seasons[k]) && Completed(e)
    ensures ResultOf(e, league, Seasons[k]) in Collected(fetched, league, |Seasons|)
  {
    SeasonResultsShape(EventsOf(fetched, Seasons[k]), league, Seasons[k]);
    assert ResultOf(e, league, Seasons[k]) in Collected(fetched, league, k + 1);
    CollectedGrows(fetched, league, k + 1, |Seasons|);
  }

  /**
   * The results are newest first and each is a completed event of a searched
   * season. They are the newest min(cap, collected) of the collected ones:
   * a completed event of a searched season is either reported or no newer
   * than every reported result.
   */
  lemma RecentResultsShape(fetched: map<string, seq<Event>>, league: League, minMatches: int)
    ensures var r := RecentResults(fetched, league, minMatches);
      var all := Collected(fetched, league, |Seasons|);
      && Cap(minMatches) >= 50 && Cap(minMatches) >= 4 * minMatches
      && |r| == (if Cap(minMatches) < |all| then Cap(minMatches) else |all|)
      && (forall i, j :: 0 <= i < j < |r| ==> r[i].date >= r[j].date)
      && (forall m :: m in r ==> exists k, e :: 0 <= k < |Seasons| && e in EventsOf(fetched, Seasons[k]) && Completed(e) && m == ResultOf(e, league, Seasons[k]))
      && (forall k: nat, e :: k < |Seasons| && Searched(fetched, league, k) && e in EventsOf(fetched, Seasons[k]) && Completed(e)
            ==> ResultOf(e, league, Seasons[k]) in r || forall i :: 0 <= i < |r| ==> ResultOf(e, league, Seasons[k]).date <= r[i].date)
  {
    var all := Collected(fetched, league, |Seasons|);
    var r := RecentResults(fetched, league, minMatches);
    assert r == NewestFirst(all, Cap(minMatches));
    NewestFirstShape(all, Cap(minMatches));
    RecentResultsFromSeasons(fetched, league, minMatches);
    RecentResultsKeepNewest(fetched, league, minMatches);
  }

  /** Each reported result is a completed event of one of the seasons. */
  lemma RecentResultsFromSeasons(fetched: map<string, seq<Event>>, league: League, minMatches: int)
    ensures var r := RecentResults(fetched, league, minMatches);
      forall m :: m in r ==> exists k, e :: 0 <= k < |Seasons| && e in EventsOf(fetched, Seasons[k]) && Completed(e) && m == ResultOf(e, league, Seasons[k])
  {
    var all := Collected(fetched, league, |Seasons|);
    assert RecentResults(fetched, league, minMatches) == NewestFirst(all, Cap(minMatches));
    NewestFirstShape(all, Cap(minMatches));
    CollectedFromSeasons(fetched, league, |Seasons|);
  }

  /** A completed event of a searched season is reported or no newer than any reported result. */
  lemma RecentResultsKeepNewest(fetched: map<string, seq<Event>>, league: League, minMatches: int)
    ensures var r := RecentResults(fetched, league, minMatches);
      forall k: nat, e :: k < |Seasons| && Searched(fetched, league, k) && e in EventsOf(fetched, Seasons[k]) && Completed(e)
        ==> ResultOf(e, league, Seasons[k]) in r || forall i :: 0 <= i < |r| ==> ResultOf(e, league, Seasons[k]).date <= r[i].date
  {
    var all := Collected(fetched, league, |Seasons|);
    var r := RecentResults(fetched, league, minMatches);
    assert r == NewestFirst(all, Cap(minMatches));
    NewestFirstShape(all, Cap(minMatches));
    forall k: nat, e | k < |Seasons| && Searched(fetched, league, k) && e in EventsOf(fetched, Seasons[k]) && Completed(e)
      ensures ResultOf(e, league, Seasons[k]) in r || forall i :: 0 <= i < |r| ==> ResultOf(e, league, Seasons[k]).date <= r[i].date
    {
      CollectedKeepsCompleted(fetched, league, k, e);
      assert ResultOf(e, league, Seasons[k]) in all;
    }
  }

  /**
   * Sorting newest first and cutting keeps min(cap, |all|) of the results,
   * in date order, each one collected, and no result left out is newer
   * than one kept.
   */
  lemma NewestFirstShape(all: seq<MatchResult>, cap: int)
    ensures var r := NewestFirst(all, cap);
      && |r| == (if cap <= 0 then 0 else if cap < |all| then cap else |all|)
      && (forall i, j :: 0 <= i < j < |r| ==> r[i].date >= r[j].date)
      && (forall m :: m in r ==> m in all)
      && (forall m :: m in all && m !in r ==> forall i :: 0 <= i < |r| ==> m.date <= r[i].date)
  {
    var sorted := SortBy(all, ResultNewest);
    SortByMembers(all, ResultNewest);
    var r := Take(sorted, cap);
    forall m | m in all && m !in r ensures forall i :: 0 <= i < |r| ==> m.date <= r[i].date {
      var k :| 0 <= k < |sorted| && sorted[k] == m;
      assert forall i :: 0 <= i < |r| ==> sorted[i] == r[i] != m;
      assert k >= |r|;
      forall i | 0 <= i < |r| ensures m.date <= r[i].date {
        assert r[i] == sorted[i];
        assert ResultNewest(sorted[i]) <= ResultNewest(sorted[k]);
      }
    }
    forall i, j | 0 <= i < j < |r| ensures r[i].date >= r[j].date {
      assert r[i] == sorted[i] && r[j] == sorted[j];
      assert ResultNewest(sorted[i]) <= ResultNewest(sorted[j]);
    }
    forall m | m in r ensures m in all {
      var i :| 0 <= i < |r| && r[i] == m;
      assert sorted[i] == m;
    }
  }

  /** One round of the seasons loop that has not yet collected enough. */
  lemma CollectedStep(fetched: map<string, seq<Event>>, league: League, i: nat)
    requires i < |Seasons| && |Collected(fetched, league, i)| < Enough
    ensures Seasons[i] in fetched && |fetched[Seasons[i]]| > 0 ==>
      Collected(fetched, league, i + 1) == Collected(fetched, league, i) + SeasonResults(fetched[Seasons[i]], league, Seasons[i])
    ensures !(Seasons[i] in fetched && |fetched[Seasons[i]]| > 0) ==>
      Collected(fetched, league, i + 1) == Collected(fetched, league, i)
  {
    var before := Collected(fetched, league, i);
    var added := SeasonResults(EventsOf(fetched, Seasons[i]), league, Seasons[i]);
    if !(Seasons[i] in fetched && |fetched[Seasons[i]]| > 0) {
      SeasonResultsShape(EventsOf(fetched, Seasons[i]), league, Seasons[i]);
      assert added == [];
      AppendEmpty(before);
    }
  }

  /** When the current season alone reaches the threshold, the previous season is never looked at. */
  lemma CurrentSeasonSuffices(fetched: map<string, seq<Event>>, league: League, minMatches: int)
    requires |SeasonResults(EventsOf(fetched, Seasons[0]), league, Seasons[0])| >= Enough
    ensures RecentResults(fetched, league, minMatches)
         == RecentResults(fetched - {Seasons[1]}, league, minMatches)
  {
    assert Collected(fetched, league, 1) == SeasonResults(EventsOf(fetched, Seasons[0]), league, Seasons[0]);
    assert EventsOf(fetched - {Seasons[1]}, Seasons[0]) == EventsOf(fetched, Seasons[0]);
    assert Collected(fetched - {Seasons[1]}, league, 1) == Collected(fetched, league, 1);
  }

  /** The loop and the final sort and slice of `fetchRecentResults`, once each season's events are fetched. */
  method CollectRecentResults(fetched: map<string, seq<Event>>, league: League, minMatches: int)
    returns (r: seq<MatchResult>)
    ensures r == RecentResults(fetched, league, minMatches)
  {
    var all: seq<MatchResult> := [];
    var i := 0;
    while i < |Seasons|
      invariant 0 <= i <= |Seasons|
      invariant all == Collected(fetched, league, i)
    {
      if |all| >= Enough {
        CollectedStops(fetched, league, i, |Seasons|);
        break;
      }
      CollectedStep(fetched, league, i);
      var season := Seasons[i];
      if season in fetched && |fetched[season]| > 0 {
        all := all + SeasonResults(fetched[season], league, season);
      }
      i := i + 1;
    }
    r := NewestFirst(all, Cap(minMatches));
  }

  // ----- extractLikelyGoalscorers -----

  /** The two fields of a fetched result the tally reads. */
  datatype ScorerLists = ScorerLists(homeGoalscorers: Option<string>, awayGoalscorers: Option<string>)

  datatype Scorer = Scorer(name: string, goals: int)

  /** A string is truthy when present and not empty. */
  predicate Truthy(s: Option<string>) {
    s.Some? && |s.value| > 0
  }

  /** The name in one `;`-separated piece: the trimmed text before the first `(`. */
  function NameOf(piece: string): string {
    Trim(FirstPart(piece))
  }

  function FirstPart(piece: string): string {
    Split(piece, "(")[0]
  }

  /** What one piece contributes: its name, or nothing when the name is empty. */
  function Named(piece: string): seq<string> {
    if NameOf(piece) == "" then [] else [NameOf(piece)]
  }

  /** The names the pieces contribute, in order. */
  function PieceNames(pieces: seq<string>): seq<string> {
    if |pieces| == 0 then [] else PieceNames(pieces[..|pieces| - 1]) + Named(pieces[|pieces| - 1])
  }

  lemma PieceNamesStep(pieces: seq<string>, k: nat)
    requires k < |pieces|
    ensures PieceNames(pieces[..k + 1]) == PieceNames(pieces[..k]) + Named(pieces[k])
  {
    PrefixSnoc(pieces, k);
  }

  function ListNames(list: Option<string>): seq<string> {
    if Truthy(list) then PieceNames(Split(list.value, ";")) else []
  }

  function MatchNames(m: ScorerLists): seq<string> {
    ListNames(m.homeGoalscorers) + ListNames(m.awayGoalscorers)
  }

  /** Every name the tally counts, once per occurrence, in the order it meets them. */
  function AllNames(ms: seq<ScorerLists>): seq<string> {
    if |ms| == 0 then [] else AllNames(ms[..|ms| - 1]) + MatchNames(ms[|ms| - 1])
  }

  lemma AllNamesStep(ms: seq<ScorerLists>, i: nat)
    requires i < |ms|
    ensures AllNames(ms[..i + 1]) == (AllNames(ms[..i]) + ListNames(ms[i].homeGoalscorers)) + ListNames(ms[i].awayGoalscorers)
  {
    assert ms[..i + 1][..i] == ms[..i];
    var a, b, c := AllNames(ms[..i]), ListNames(ms[i].homeGoalscorers), ListNames(ms[i].awayGoalscorers);
    AppendAssoc(a, b, c);
  }

  function Occurrences(names: seq<string>, n: string): (c: nat)
    ensures c > 0 <==> n in names
  {
    if |names| == 0 then 0
    else
      AllButLast(names);
      Occurrences(names[..|names| - 1], n) + (if names[|names| - 1] == n then 1 else 0)
  }

  /** The names in order of first occurrence: the key order of the tally's dictionary. */
  function Distinct(names: seq<string>): seq<string> {
    if |names| == 0 then []
    else
      var d := Distinct(names[..|names| - 1]);
      if names[|names| - 1] in d then d else d + [names[|names| - 1]]
  }

  /** `Distinct` keeps every name, each exactly once. */
  lemma {:induction false} DistinctMembers(names: seq<string>)
    ensures forall x :: x in Distinct(names) <==> x in names
    ensures forall i, j :: 0 <= i < j < |Distinct(names)| ==> Distinct(names)[i] != Distinct(names)[j]
    decreases |names|
  {
    if |names| > 0 {
      var init := names[..|names| - 1];
      DistinctMembers(init);
      AllButLast(names);
    }
  }

  function ByGoals(s: Scorer): int { -s.goals }

  /** Each distinct name with its number of occurrences, in first-occurrence order. */
  function Entries(names: seq<string>): seq<Scorer> {
    var d := Distinct(names);
    seq(|d|, i requires 0 <= i < |d| => Scorer(d[i], Occurrences(names, d[i])))
  }

  /** `.sort((a, b) => b.goals - a.goals).slice(0, 10)`. */
  function TopTen(entries: seq<Scorer>): seq<Scorer> {
    Take(SortBy(entries, ByGoals), 10)
  }

  /** What `extractLikelyGoalscorers` returns: the entries by goals, most first, at most ten. */
  function LikelyGoalscorers(ms: seq<ScorerLists>): seq<Scorer> {
    TopTen(Entries(AllNames(ms)))
  }

  /** The tally's dictionary: its keys in insertion order, which is the order `Object.entries` lists them, and each key's count. */
  datatype Tally = Tally(keys: seq<string>, counts: map<string, int>)

  /** `scorerMap[name] = (scorerMap[name] || 0) + 1`. */
  function Add(t: Tally, name: string): Tally {
    Tally(if name in t.counts then t.keys else t.keys + [name],
          t.counts[name := (if name in t.counts then t.counts[name] else 0) + 1])
  }

  /** The dictionary after counting a run of names, one by one. */
  function Feed(t: Tally, names: seq<string>): Tally {
    if |names| == 0 then t else Add(Feed(t, names[..|names| - 1]), names[|names| - 1])
  }

  lemma FeedStep(t: Tally, names: seq<string>, name: string)
    ensures Feed(t, names + [name]) == Add(Feed(t, names), name)
  {
    SnocParts(names, name);
  }

  /** Counting two runs one after the other is counting their concatenation. */
  lemma {:induction false} FeedConcat(t: Tally, a: seq<string>, b: seq<string>)
    ensures Feed(t, a + b) == Feed(Feed(t, a), b)
    decreases |b|
  {
    if |b| == 0 {
      AppendEmpty(a);
    } else {
      var init := b[..|b| - 1];
      FeedConcat(t, a, init);
      AllButLast(b);
      AppendAssoc(a, init, [b[|b| - 1]]);
      FeedStep(t, a + init, b[|b| - 1]);
    }
  }

  /** The dictionary after a run of names: its keys are the distinct names and each key's count is its number of occurrences. */
  ghost predicate Tallied(t: Tally, names: seq<string>) {
    && t.keys == Distinct(names)
    && (forall k :: k in t.counts <==> k in names)
    && (forall k :: k in t.counts ==> t.counts[k] == Occurrences(names, k))
  }

  lemma TallyStep(t: Tally, names: seq<string>, name: string)
    requires Tallied(t, names)
    ensures Tallied(Add(t, name), names + [name])
  {
    var names' := names + [name];
    SnocParts(names, name);
    DistinctMembers(names);
    var t' := Add(t, name);
    forall k ensures k in t'.counts <==> k in names' {
      assert k in names' <==> k in names || k == name;
    }
    forall k | k in t'.counts ensures t'.counts[k] == Occurrences(names', k) {
      assert Occurrences(names', k) == Occurrences(names, k) + (if k == name then 1 else 0);
    }
  }

  /** Counting a run of names keeps the dictionary faithful to the names counted so far. */
  lemma {:induction false} FeedTallied(t: Tally, history: seq<string>, names: seq<string>)
    requires Tallied(t, history)
    ensures Tallied(Feed(t, names), history + names)
    decreases |names|
  {
    if |names| == 0 {
      AppendEmpty(history);
    } else {
      var init := names[..|names| - 1];
      FeedTallied(t, history, init);
      TallyStep(Feed(t, init), history + init, names[|names| - 1]);
      AllButLast(names);
      AppendAssoc(history, init, [names[|names| - 1]]);
    }
  }

  /** `Object.entries` of a faithful dictionary lists each distinct name with its number of occurrences. */
  lemma TalliedEntries(t: Tally, names: seq<string>)
    requires Tallied(t, names)
    ensures forall k :: k in t.keys ==> k in t.counts
    ensures ObjectEntries(t) == Entries(names)
  {
    DistinctMembers(names);
    assert |ObjectEntries(t)| == |Entries(names)|;
  }

  const Empty: Tally := Tally([], map[])

  /** Counting names into an empty dictionary and listing it gives the entries of those names. */
  lemma FedEntries(names: seq<string>)
    ensures forall k :: k in Feed(Empty, names).keys ==> k in Feed(Empty, names).counts
    ensures ObjectEntries(Feed(Empty, names)) == Entries(names)
  {
    AppendEmpty(names);
    FeedTallied(Empty, [], names);
    TalliedEntries(Feed(Empty, names), names);
  }

  /** `Object.entries(scorerMap)`: each key with its count, in key order. */
  function ObjectEntries(t: Tally): seq<Scorer>
    requires forall k :: k in t.keys ==> k in t.counts
  {
    seq(|t.keys|, j requires 0 <= j < |t.keys| => Scorer(t.keys[j], t.counts[t.keys[j]]))
  }

  /** One scorer string: `split(';')`, cut each piece at `(`, trim, skip the empty names, count. */
  method CountScorers(keys0: seq<string>, counts0: map<string, int>, list: string)
    returns (keys: seq<string>, counts: map<string, int>)
    ensures Tally(keys, counts) == Feed(Tally(keys0, counts0), PieceNames(Split(list, ";")))
  {
    var pieces := Split(list, ";");
    keys, counts := keys0, counts0;
    var k := 0;
    while k < |pieces|
      invariant 0 <= k <= |pieces|
      invariant Tally(keys, counts) == Feed(Tally(keys0, counts0), PieceNames(pieces[..k]))
    {
      PieceNamesStep(pieces, k);
      var name := NameOf(pieces[k]);
      if name != "" {
        FeedStep(Tally(keys0, counts0), PieceNames(pieces[..k]), name);
        if name !in counts {
          keys := keys + [name];
        }
        counts := counts[name := (if name in counts then counts[name] else 0) + 1];
      } else {
        AppendEmpty(PieceNames(pieces[..k]));
      }
      k := k + 1;
    }
    TakeAll(pieces);
  }

  /** `extractLikelyGoalscorers`: the dictionary filled match by match, then listed, sorted and cut. */
  method ExtractLikelyGoalscorers(ms: seq<ScorerLists>) returns (r: seq<Scorer>)
    ensures r == LikelyGoalscorers(ms)
  {
    var keys: seq<string> := [];
    var counts: map<string, int> := map[];
    var i := 0;
    while i < |ms|
      invariant 0 <= i <= |ms|
      invariant Tally(keys, counts) == Feed(Empty, AllNames(ms[..i]))
    {
      AllNamesStep(ms, i);
      ghost var before := AllNames(ms[..i]);
      var m := ms[i];
      ghost var middle := before + ListNames(m.homeGoalscorers);
      FeedConcat(Empty, before, ListNames(m.homeGoalscorers));
      if Truthy(m.homeGoalscorers) {
        keys, counts := CountScorers(keys, counts, m.homeGoalscorers.value);
      } else {
        AppendEmpty(before);
      }
      assert Tally(keys, counts) == Feed(Empty, middle);
      FeedConcat(Empty, middle, ListNames(m.awayGoalscorers));
      if Truthy(m.awayGoalscorers) {
        keys, counts := CountScorers(keys, counts, m.awayGoalscorers.value);
      } else {
        AppendEmpty(middle);
      }
      i := i + 1;
    }
    assert ms[..|ms|] == ms;
    FedEntries(AllNames(ms));
    var entries := ObjectEntries(Tally(keys, counts));
    r := TopTen(entries);
  }

  // ----- properties of the tally -----

  lemma NoDupCount<T>(s: seq<T>, x: T)
    requires forall i, j :: 0 <= i < j < |s| ==> s[i] != s[j]
    ensures multiset(s)[x] <= 1
  {
    if |s| > 0 {
      assert s == [s[0]] + s[1..];
      NoDupCount(s[1..], x);
      if s[0] == x {
        assert x !in s[1..];
      }
    }
  }

  lemma TwiceCount<T>(s: seq<T>, i: int, j: int)
    requires 0 <= i < j < |s| && s[i] == s[j]
    ensures multiset(s)[s[i]] >= 2
  {
    assert s == s[..j] + [s[j]] + s[j + 1..];
    assert s[i] in s[..j];
  }

  /** Every entry's name is one of the counted names, and its count is that name's number of occurrences. */
  lemma EntriesCount(names: seq<string>)
    ensures forall e :: e in Entries(names) ==> e.name in names && e.goals == Occurrences(names, e.name)
    ensures forall i, j :: 0 <= i < j < |Entries(names)| ==> Entries(names)[i].name != Entries(names)[j].name
    ensures forall n :: n in names ==> Scorer(n, Occurrences(names, n)) in Entries(names)
  {
    var d := Distinct(names);
    DistinctMembers(names);
    forall n | n in names ensures Scorer(n, Occurrences(names, n)) in Entries(names) {
      var i :| 0 <= i < |d| && d[i] == n;
      assert Entries(names)[i] == Scorer(n, Occurrences(names, n));
    }
  }

  /** The top ten: at most ten of the given entries, most goals first. */
  lemma TopTenOrdered(entries: seq<Scorer>)
    ensures var r := TopTen(entries);
      && |r| <= 10
      && (forall i, j :: 0 <= i < j < |r| ==> r[i].goals >= r[j].goals)
      && (forall i :: 0 <= i < |r| ==> r[i] in entries)
  {
    var sorted := SortBy(entries, ByGoals);
    SortByMembers(entries, ByGoals);
    var r := Take(sorted, 10);
    forall i, j | 0 <= i < j < |r| ensures r[i].goals >= r[j].goals {
      assert r[i] == sorted[i] && r[j] == sorted[j];
      assert ByGoals(sorted[i]) <= ByGoals(sorted[j]);
    }
    forall i | 0 <= i < |r| ensures r[i] in entries {
      assert r[i] == sorted[i];
    }
  }

  /** Distinct entries stay distinct in the top ten. */
  lemma TopTenDistinct(entries: seq<Scorer>)
    requires forall i, j :: 0 <= i < j < |entries| ==> entries[i] != entries[j]
    ensures var r := TopTen(entries); forall i, j :: 0 <= i < j < |r| ==> r[i] != r[j]
  {
    var sorted := SortBy(entries, ByGoals);
    var r := Take(sorted, 10);
    forall i, j | 0 <= i < j < |r| ensures r[i] != r[j] {
      assert r[i] == sorted[i] && r[j] == sorted[j];
      NoDupCount(entries, r[i]);
      if r[i] == r[j] {
        TwiceCount(sorted, i, j);
        assert false;
      }
    }
  }

  /** No entry left out of the top ten has more goals than an entry kept. */
  lemma TopTenBest(entries: seq<Scorer>, e: Scorer)
    requires e in entries && e !in TopTen(entries)
    ensures forall i :: 0 <= i < |TopTen(entries)| ==> e.goals <= TopTen(entries)[i].goals
  {
    var sorted := SortBy(entries, ByGoals);
    SortByMembers(entries, ByGoals);
    var r := Take(sorted, 10);
    var idx :| 0 <= idx < |sorted| && sorted[idx] == e;
    assert idx >= |r|;
    forall i | 0 <= i < |r| ensures e.goals <= r[i].goals {
      assert r[i] == sorted[i];
      assert ByGoals(sorted[i]) <= ByGoals(sorted[idx]);
    }
  }

  /**
   * The result has at most ten entries, most goals first, with unique names,
   * each counted as often as the name occurs (at least once), and no name left
   * out has more goals than any entry kept.
   */
  lemma LikelyGoalscorersShape(ms: seq<ScorerLists>)
    ensures var r := LikelyGoalscorers(ms); var names := AllNames(ms);
      && |r| <= 10
      && (forall i, j :: 0 <= i < j < |r| ==> r[i].goals >= r[j].goals)
      && (forall i, j :: 0 <= i < j < |r| ==> r[i].name != r[j].name)
      && (forall i :: 0 <= i < |r| ==> r[i].name in names && r[i].goals == Occurrences(names, r[i].name) >= 1)
      && (forall n :: n in names && (forall i :: 0 <= i < |r| ==> r[i].name != n) ==>
            forall i :: 0 <= i < |r| ==> Occurrences(names, n) <= r[i].goals)
  {
    var names := AllNames(ms);
    var entries := Entries(names);
    EntriesCount(names);
    TopTenOrdered(entries);
    var r := TopTen(entries);
    assert forall i, j :: 0 <= i < j < |entries| ==> entries[i] != entries[j];
    TopTenDistinct(entries);
    forall i, j | 0 <= i < j < |r| ensures r[i].name != r[j].name {
      assert r[i] in entries && r[j] in entries && r[i] != r[j];
    }
    forall n | n in names && (forall i :: 0 <= i < |r| ==> r[i].name != n)
      ensures forall i :: 0 <= i < |r| ==> Occurrences(names, n) <= r[i].goals
    {
      var e := Scorer(n, Occurrences(names, n));
      assert e in entries;
      assert e !in r;
      TopTenBest(entries, e);
    }
  }

  /** Each counted name is the non-empty trimmed text before the first `(` of one of the pieces. */
  lemma {:induction false} PieceNamesShape(pieces: seq<string>)
    ensures forall n :: n in PieceNames(pieces) ==> n != "" && exists p :: p in pieces && n == Trim(FirstPart(p))
    decreases |pieces|
  {
    if |pieces| > 0 {
      var init := pieces[..|pieces| - 1];
      PieceNamesShape(init);
      forall n | n in PieceNames(pieces) ensures n != "" && exists p :: p in pieces && n == Trim(FirstPart(p)) {
        if n in PieceNames(init) {
          var p :| p in init && n == Trim(FirstPart(p));
          assert p in pieces;
        } else {
          assert pieces[|pieces| - 1] in pieces;
        }
      }
    }
  }

  /** A match whose two scorer strings are missing or empty leaves the tally as it was. */
  lemma QuietMatchAddsNothing(ms: seq<ScorerLists>, m: ScorerLists)
    requires !Truthy(m.homeGoalscorers) && !Truthy(m.awayGoalscorers)
    ensures AllNames(ms + [m]) == AllNames(ms)
    ensures LikelyGoalscorers(ms + [m]) == LikelyGoalscorers(ms)
  {
    assert (ms + [m])[..|ms|] == ms;
    AppendEmpty(AllNames(ms));
  }

  /** A name reaches the tally once for each match list it appears in. */
  lemma {:induction false} OccurrencesConcat(a: seq<string>, b: seq<string>, n: string)
    ensures Occurrences(a + b, n) == Occurrences(a, n) + Occurrences(b, n)
    decreases |b|
  {
    if |b| == 0 {
      AppendEmpty(a);
    } else {
      var b' := b[..|b| - 1];
      AllButLast(b);
      AppendAssoc(a, b', [b[|b| - 1]]);
      SnocParts(a + b', b[|b| - 1]);
      OccurrencesConcat(a, b', n);
    }
  }
}
