/**
 * The match analysis handler: request validation, the lookup of both teams
 * in the league table, the league averages, each team's recent form, the
 * clamped ratings fed to the Dixon-Coles model, the five-letter form strings
 * and the betting label. The fixture list, the recent results and the table
 * the handler fetches are inputs, and Math.exp is the parameter `exp`.
 */
module Analysis {
  import opened Wrappers
  import opened Text
  import opened Arrays
  import opened Utils
  import DC = DixonColes

  // ----- finding both teams in the table -----

  /**
   * The test `standings.find` applies to a row: the first word of either
   * lowercased name occurs in the other, or the two are equal.
   */
  predicate TeamMatches(row: Standing, fixtureName: string) {
    var teamName := Lower(row.team);
    var name := Lower(fixtureName);
    Contains(teamName, FirstWord(name)) || Contains(name, FirstWord(teamName)) || teamName == name
  }

  /** The first row of the table that matches the fixture's team name. */
  function FindTeam(standings: seq<Standing>, fixtureName: string): (r: Option<Standing>)
    ensures r.None? <==> forall i :: 0 <= i < |standings| ==> !TeamMatches(standings[i], fixtureName)
    ensures r.Some? ==> exists i :: (0 <= i < |standings| && standings[i] == r.value
      && TeamMatches(standings[i], fixtureName) && forall j :: 0 <= j < i ==> !TeamMatches(standings[j], fixtureName))
  {
    Find(standings, (row: Standing) => TeamMatches(row, fixtureName))
  }

  /**
   * A row is taken as soon as the fixture name's first word occurs in its
   * name, so "Manchester City" is matched by a "Manchester United" row.
   */
  lemma SharedFirstWordMatches(row: Standing, fixtureName: string, j: int)
    requires OccursAt(Lower(row.team), FirstWord(Lower(fixtureName)), j)
    ensures TeamMatches(row, fixtureName)
  {
    ContainsIff(Lower(row.team), FirstWord(Lower(fixtureName)));
  }

  /** Every row matches a name whose first word is empty, so the first row of a non-empty table is taken. */
  lemma BlankFirstWordTakesFirstRow(standings: seq<Standing>, fixtureName: string)
    requires |standings| > 0 && FirstWord(Lower(fixtureName)) == ""
    ensures FindTeam(standings, fixtureName) == Some(standings[0])
  {
    SharedFirstWordMatches(standings[0], fixtureName, 0);
  }

  // ----- league averages -----

  function TotalGoalsFor(rows: seq<Standing>): int {
    if |rows| == 0 then 0 else rows[0].goalsFor + TotalGoalsFor(rows[1..])
  }

  function TotalGoalsAgainst(rows: seq<Standing>): int {
    if |rows| == 0 then 0 else rows[0].goalsAgainst + TotalGoalsAgainst(rows[1..])
  }

  /** `total / Math.max(count, 1)`: the mean over the rows, 0 for an empty table. */
  function Average(total: int, count: nat): (avg: real)
    ensures count > 0 ==> avg * count as real == total as real
    ensures count == 0 ==> avg == total as real
  {
    total as real / (if count > 0 then count else 1) as real
  }

  /** Goals scored per team, over the whole table. */
  function LeagueAvgGoalsFor(standings: seq<Standing>): real {
    Average(TotalGoalsFor(standings), |standings|)
  }

  /** Goals conceded per team, over the whole table. */
  function LeagueAvgGoalsAgainst(standings: seq<Standing>): real {
    Average(TotalGoalsAgainst(standings), |standings|)
  }

  lemma {:induction false} TotalGoalsBounds(rows: seq<Standing>, k: int)
    requires forall i :: 0 <= i < |rows| ==> 0 <= rows[i].goalsFor <= k && 0 <= rows[i].goalsAgainst <= k
    ensures 0 <= TotalGoalsFor(rows) <= |rows| * k
    ensures 0 <= TotalGoalsAgainst(rows) <= |rows| * k
  {
    if |rows| > 0 {
      assert forall i :: 0 <= i < |rows[1..]| ==> rows[1..][i] == rows[i + 1];
      TotalGoalsBounds(rows[1..], k);
      assert |rows| * k == k + (|rows| - 1) * k;
    }
  }

  /** With every team's goals between 0 and k, both league averages lie between 0 and k. */
  lemma LeagueAveragesBounded(standings: seq<Standing>, k: int)
    requires forall i :: 0 <= i < |standings| ==> 0 <= standings[i].goalsFor <= k && 0 <= standings[i].goalsAgainst <= k
    ensures |standings| > 0 ==> 0.0 <= LeagueAvgGoalsFor(standings) <= k as real
    ensures |standings| > 0 ==> 0.0 <= LeagueAvgGoalsAgainst(standings) <= k as real
    ensures |standings| == 0 ==> LeagueAvgGoalsFor(standings) == 0.0 && LeagueAvgGoalsAgainst(standings) == 0.0
  {
    TotalGoalsBounds(standings, k);
    if |standings| > 0 {
      DivisionBound(TotalGoalsFor(standings), |standings|, k);
      DivisionBound(TotalGoalsAgainst(standings), |standings|, k);
    }
  }

  lemma DivisionBound(total: int, n: nat, k: int)
    requires n > 0 && 0 <= total <= n * k
    ensures 0.0 <= Average(total, n) <= k as real
  {
    var avg := Average(total, n);
    assert (n * k) as real == n as real * k as real;
    if avg > k as real {
      MulLess(k as real, avg, n as real);
    }
  }

  lemma MulLess(a: real, b: real, n: real)
    requires a < b && n > 0.0
    ensures a * n < b * n
  {
  }

  // ----- recent form -----

  /** The team played the match, at home or away. */
  predicate Involves(m: MatchResult, team: string) {
    m.homeTeam == team || m.awayTeam == team
  }

  /** `recentResults.filter(...)`: the results the team played, in list order. */
  function Involving(results: seq<MatchResult>, team: string): seq<MatchResult> {
    Filter(results, (m: MatchResult) => Involves(m, team))
  }

  /** `.slice(0, 5)` of those: the team's first five results in the list. */
  function RecentMatches(results: seq<MatchResult>, team: string): (r: seq<MatchResult>)
    ensures |r| <= 5
    ensures forall m :: m in r ==> m in results && Involves(m, team)
  {
    Take(Involving(results, team), 5)
  }

  /**
   * A result the team played lands at the slot given by how many of its
   * results come before it, as long as that is under five: the kept matches
   * are the first five, in list order.
   */
  lemma RecentMatchesSlots(results: seq<MatchResult>, team: string, i: nat)
    requires i < |results| && Involves(results[i], team) && |Involving(results[..i], team)| < 5
    ensures var k := |Involving(results[..i], team)|;
      k < |RecentMatches(results, team)| && RecentMatches(results, team)[k] == results[i]
  {
    FilterSlot(results, (m: MatchResult) => Involves(m, team), i);
  }

  /** Which of the two fixture teams a sum is taken for: the tests differ for each. */
  datatype Side = HomeSide | AwaySide

  /** The goals the source credits to the fixture team for one match. */
  function GoalsFor(m: MatchResult, team: string, side: Side): int {
    match side
    case HomeSide => if m.homeTeam == team then m.homeScore else m.awayScore
    case AwaySide => if m.awayTeam == team then m.awayScore else m.homeScore
  }

  /** The goals the source counts against the fixture team for one match. */
  function GoalsAgainst(m: MatchResult, team: string, side: Side): int {
    match side
    case HomeSide => if m.homeTeam == team then m.awayScore else m.homeScore
    case AwaySide => if m.awayTeam == team then m.homeScore else m.awayScore
  }

  function Scored(ms: seq<MatchResult>, team: string, side: Side): int {
    if |ms| == 0 then 0 else GoalsFor(ms[0], team, side) + Scored(ms[1..], team, side)
  }

  function Conceded(ms: seq<MatchResult>, team: string, side: Side): int {
    if |ms| == 0 then 0 else GoalsAgainst(ms[0], team, side) + Conceded(ms[1..], team, side)
  }

  /** All goals of the matches, both sides. */
  function MatchGoals(ms: seq<MatchResult>): int {
    if |ms| == 0 then 0 else ms[0].homeScore + ms[0].awayScore + MatchGoals(ms[1..])
  }

  /** The goals of the side the team played on. */
  function OwnGoals(m: MatchResult, team: string): int {
    if m.homeTeam == team then m.homeScore else if m.awayTeam == team then m.awayScore else 0
  }

  function OwnTotal(ms: seq<MatchResult>, team: string): int {
    if |ms| == 0 then 0 else OwnGoals(ms[0], team) + OwnTotal(ms[1..], team)
  }

  /** Scored and conceded split every goal of the matches between them. */
  lemma {:induction false} ScoredPlusConceded(ms: seq<MatchResult>, team: string, side: Side)
    ensures Scored(ms, team, side) + Conceded(ms, team, side) == MatchGoals(ms)
  {
    if |ms| > 0 {
      ScoredPlusConceded(ms[1..], team, side);
    }
  }

  /**
   * When the team played each match and no match has it on both sides, both
   * tests count the goals of the side it played on.
   */
  lemma {:induction false} ScoredFromOwnSide(ms: seq<MatchResult>, team: string, side: Side)
    requires forall i :: 0 <= i < |ms| ==> Involves(ms[i], team) && ms[i].homeTeam != ms[i].awayTeam
    ensures Scored(ms, team, side) == OwnTotal(ms, team)
  {
    if |ms| > 0 {
      assert forall i :: 0 <= i < |ms[1..]| ==> ms[1..][i] == ms[i + 1];
      ScoredFromOwnSide(ms[1..], team, side);
    }
  }

  /** `count > 0 ? total / count : 1.0`. */
  function PerGame(total: int, count: nat): (rate: real)
    ensures count > 0 ==> rate * count as real == total as real
    ensures count == 0 ==> rate == 1.0
  {
    if count > 0 then total as real / count as real else 1.0
  }

  /** What the handler reads of a team's recent results. */
  datatype Form = Form(goals: int, conceded: int, matches: nat)

  function FormOf(results: seq<MatchResult>, team: string, side: Side): Form {
    var ms := RecentMatches(results, team);
    Form(Scored(ms, team, side), Conceded(ms, team, side), |ms|)
  }

  // ----- ratings -----

  /** `gpg / Math.max(avgFor, 0.1)`: recent scoring relative to the league. */
  function FormAttack(gpg: real, avgFor: real): (r: real)
    ensures r * DC.Max(avgFor, 0.1) == gpg
    ensures gpg >= 0.0 ==> r >= 0.0
  {
    gpg / DC.Max(avgFor, 0.1)
  }

  /** `Math.max(avgAgainst, 0.1) / Math.max(cpg, 0.1)`: fewer goals conceded than the league gives more than 1. */
  function FormDefense(avgAgainst: real, cpg: real): (r: real)
    ensures r > 0.0
    ensures r * DC.Max(cpg, 0.1) == DC.Max(avgAgainst, 0.1)
  {
    DC.Max(avgAgainst, 0.1) / DC.Max(cpg, 0.1)
  }

  /** `Math.max(Math.min(x, 2.5), 0.6)`. */
  function Clamp(x: real): (r: real)
    ensures 0.6 <= r <= 2.5
    ensures 0.6 <= x <= 2.5 ==> r == x
    ensures x < 0.6 ==> r == 0.6
    ensures x > 2.5 ==> r == 2.5
  {
    DC.Max(DC.Min(x, 2.5), 0.6)
  }

  /** `Math.max(avgFor, 1.0)`. */
  function SafeLeagueAvg(avgFor: real): (r: real)
    ensures r >= 1.0
    ensures avgFor >= 1.0 ==> r == avgFor
  {
    DC.Max(avgFor, 1.0)
  }

  /** The four clamped ratings and the league baseline handed to the model. */
  datatype Ratings = Ratings(homeAttack: real, homeDefense: real, awayAttack: real, awayDefense: real, leagueAverage: real)

  predicate Safe(r: Ratings) {
    && 0.6 <= r.homeAttack <= 2.5 && 0.6 <= r.homeDefense <= 2.5
    && 0.6 <= r.awayAttack <= 2.5 && 0.6 <= r.awayDefense <= 2.5
    && r.leagueAverage >= 1.0
  }

  /** The ratings for a fixture from each team's recent form and the league averages. */
  function SafeRatings(home: Form, away: Form, standings: seq<Standing>): (r: Ratings)
    ensures Safe(r)
  {
    var avgFor := LeagueAvgGoalsFor(standings);
    var avgAgainst := LeagueAvgGoalsAgainst(standings);
    Ratings(
      Clamp(FormAttack(PerGame(home.goals, home.matches), avgFor)),
      Clamp(FormDefense(avgAgainst, PerGame(home.conceded, home.matches))),
      Clamp(FormAttack(PerGame(away.goals, away.matches), avgFor)),
      Clamp(FormDefense(avgAgainst, PerGame(away.conceded, away.matches))),
      SafeLeagueAvg(avgFor))
  }

  /** Teams without recent results rate 1.0 per game both ways, so their ratings depend on the league alone. */
  lemma NoRecentResults(standings: seq<Standing>)
    ensures var r := SafeRatings(Form(0, 0, 0), Form(0, 0, 0), standings);
      var avgFor := LeagueAvgGoalsFor(standings);
      var avgAgainst := LeagueAvgGoalsAgainst(standings);
      && r.homeAttack == r.awayAttack == Clamp(1.0 / DC.Max(avgFor, 0.1))
      && r.homeDefense == r.awayDefense == Clamp(DC.Max(avgAgainst, 0.1))
  {
    var avgFor := LeagueAvgGoalsFor(standings);
    assert PerGame(0, 0) == 1.0;
    assert FormAttack(1.0, avgFor) * DC.Max(avgFor, 0.1) == 1.0;
    assert FormDefense(LeagueAvgGoalsAgainst(standings), 1.0) * 1.0 == DC.Max(LeagueAvgGoalsAgainst(standings), 0.1);
  }

  /**
   * The arguments of the `predictProbs` call: the ratings, home advantage
   * 1.35, the defaults for the rest. The rates the engine derives from them
   * are the expected goals the handler computes on its own.
   */
  function ModelInputs(r: Ratings): (p: DC.Inputs)
    ensures DC.LambdaHome(p) == ExpectedGoalsHome(r) && DC.LambdaAway(p) == ExpectedGoalsAway(r)
    ensures p.homeAdvantage == 1.35 && p.leagueAverage == r.leagueAverage && p.rho == 0.1 && p.maxGoals == 6
    ensures p.homeAttack == r.homeAttack && p.homeDefense == r.homeDefense
    ensures p.awayAttack == r.awayAttack && p.awayDefense == r.awayDefense
  {
    DC.WithDefaults(r.homeAttack, r.homeDefense, r.awayAttack, r.awayDefense).(homeAdvantage := 1.35, leagueAverage := r.leagueAverage)
  }

  /** The expected goals the handler reports, computed apart from the model. */
  function ExpectedGoalsHome(r: Ratings): real {
    r.homeAttack * r.awayDefense * 1.35 * r.leagueAverage
  }

  function ExpectedGoalsAway(r: Ratings): real {
    r.awayAttack * r.homeDefense * r.leagueAverage
  }

  /**
   * The model's prediction for safe ratings. Its total never vanishes, its
   * probabilities sum to 1, and its expected goals are the ones the handler
   * reports beside it.
   */
  function Forecast(exp: DC.PosFn, r: Ratings): (pr: DC.Prediction)
    requires Safe(r)
    ensures pr.pHome + pr.pDraw + pr.pAway == 1.0
    ensures 0.0 <= pr.pHome <= 1.0 && 0.0 <= pr.pDraw <= 1.0 && 0.0 <= pr.pAway <= 1.0
    ensures pr.expectedGoalsHome == ExpectedGoalsHome(r) > 0.0
    ensures pr.expectedGoalsAway == ExpectedGoalsAway(r) > 0.0
    ensures pr.modelParameters.homeAdvantage == 1.35 && pr.modelParameters.correlationFactor == 0.1
  {
    var p := ModelInputs(r);
    DC.RatedInputsPositive(p);
    DC.MassNonZero(exp, p);
    DC.PredictSumsToOne(exp, p);
    DC.PredictInUnitRange(exp, p);
    DC.Predict(exp, p)
  }

  // ----- the report strings -----

  /** A value built with `repeat`, or the negative count that made it throw a RangeError. */
  datatype Built<T> = Built(value: T) | InvalidCount(count: int)

  function IntMin(a: int, b: int): int { if a <= b then a else b }

  /** `cond ? String(c).repeat(count) : ''`. */
  function Segment(c: char, cond: bool, count: int): (b: Built<string>)
    ensures b.InvalidCount? <==> cond && count < 0
    ensures b.InvalidCount? ==> b.count == count
    ensures b.Built? ==> |b.value| == (if cond then count else 0) && forall i :: 0 <= i < |b.value| ==> b.value[i] == c
  {
    if !cond then Built("")
    else match Repeat(c, count)
      case None => InvalidCount(count)
      case Some(t) => Built(t)
  }

  /** The template literal: wins when at least three, then draws, then losses, each cut to what is left of five. */
  function Letters(s: Standing): Built<string> {
    var w := Segment('W', s.won >= 3, IntMin(s.won, 5));
    var d := Segment('D', s.drawn >= 1, IntMin(s.drawn, 5 - s.won));
    var l := Segment('L', s.lost >= 1, IntMin(s.lost, 5 - s.won - s.drawn));
    if w.InvalidCount? then InvalidCount(w.count)
    else if d.InvalidCount? then InvalidCount(d.count)
    else if l.InvalidCount? then InvalidCount(l.count)
    else Built(w.value + d.value + l.value)
  }

  /** `last_5_games`: the letters padded with W and cut to five, or the fixed string when the team is not in the table. */
  function LastFive(row: Option<Standing>, fallback: string): Built<string> {
    match row
    case None => Built(fallback)
    case Some(s) =>
      match Letters(s)
      case InvalidCount(n) => InvalidCount(n)
      case Built(t) => Built(FitTo(t, 5, 'W'))
  }

  predicate IsResultLetter(c: char) { c == 'W' || c == 'D' || c == 'L' }

  /**
   * The form string throws exactly when a count passed to `repeat` goes
   * negative: draws after more than five wins, or losses after more than five
   * wins and draws; otherwise it is five result letters.
   */
  lemma LastFiveShape(s: Standing, fallback: string)
    ensures var f := LastFive(Some(s), fallback);
      && (f.InvalidCount? <==> (s.drawn >= 1 && s.won > 5) || (s.lost >= 1 && s.won + s.drawn > 5))
      && (f.InvalidCount? ==> f.count == if s.drawn >= 1 && s.won > 5 then 5 - s.won else 5 - s.won - s.drawn)
      && (f.Built? ==> |f.value| == 5 && forall i :: 0 <= i < 5 ==> IsResultLetter(f.value[i]))
  {
    var f := LastFive(Some(s), fallback);
    var w := Segment('W', s.won >= 3, IntMin(s.won, 5));
    var d := Segment('D', s.drawn >= 1, IntMin(s.drawn, 5 - s.won));
    var l := Segment('L', s.lost >= 1, IntMin(s.lost, 5 - s.won - s.drawn));
    if f.Built? {
      var t := w.value + d.value + l.value;
      assert forall i :: 0 <= i < |t| ==> IsResultLetter(t[i]) by {
        forall i | 0 <= i < |t| ensures IsResultLetter(t[i]) {
          if i < |w.value| {
            assert t[i] == w.value[i];
          } else if i < |w.value| + |d.value| {
            assert t[i] == d.value[i - |w.value|];
          } else {
            assert t[i] == l.value[i - |w.value| - |d.value|];
          }
        }
      }
    }
  }

  lemma RepeatedCount(c: char, n: nat, x: char)
    ensures multiset(seq(n, i => c))[x] == if x == c then n else 0
  {
    if n > 0 {
      assert seq(n, i => c) == seq(n - 1, i => c) + [c];
      RepeatedCount(c, n - 1, x);
    }
  }

  lemma LettersCount(t: string, c: char, n: nat)
    requires |t| == n && forall i :: 0 <= i < n ==> t[i] == c
    ensures multiset(t)[c] == n && forall x :: x != c ==> multiset(t)[x] == 0
  {
    assert t == seq(n, i => c);
    RepeatedCount(c, n, c);
    forall x | x != c ensures multiset(t)[x] == 0 {
      RepeatedCount(c, n, x);
    }
  }

  /**
   * For a record of at most five games the form string shows every draw and
   * every loss of the table, the rest of the five being wins.
   */
  lemma LastFiveCounts(s: Standing, fallback: string)
    requires s.won >= 0 && s.drawn >= 0 && s.lost >= 0 && s.won + s.drawn + s.lost <= 5
    ensures var f := LastFive(Some(s), fallback);
      && f.Built?
      && multiset(f.value)['D'] == s.drawn && multiset(f.value)['L'] == s.lost
      && multiset(f.value)['W'] == 5 - s.drawn - s.lost
  {
    LettersOfRecord(s);
    var t := Letters(s).value;
    assert LastFive(Some(s), fallback) == Built(FitTo(t, 5, 'W'));
    PaddedLetters(t);
  }

  /** Padding with W to five letters adds only wins. */
  lemma PaddedLetters(t: string)
    requires |t| <= 5
    ensures multiset(FitTo(t, 5, 'W'))['D'] == multiset(t)['D'] && multiset(FitTo(t, 5, 'W'))['L'] == multiset(t)['L']
    ensures multiset(FitTo(t, 5, 'W'))['W'] == multiset(t)['W'] + 5 - |t|
  {
    var pad := seq(5 - |t|, i => 'W');
    FitToShort(t, 5, 'W');
    LettersCount(pad, 'W', 5 - |t|);
    PaddedCounts(t, pad);
  }

  lemma PaddedCounts(t: string, pad: string)
    requires forall x :: x != 'W' ==> multiset(pad)[x] == 0
    ensures multiset(t + pad)['D'] == multiset(t)['D'] && multiset(t + pad)['L'] == multiset(t)['L']
    ensures multiset(t + pad)['W'] == multiset(t)['W'] + multiset(pad)['W']
  {
    assert multiset(t + pad) == multiset(t) + multiset(pad);
  }

  /** The letters of a record of at most five games: its draws and losses, and wins for the rest. */
  lemma LettersOfRecord(s: Standing)
    requires s.won >= 0 && s.drawn >= 0 && s.lost >= 0 && s.won + s.drawn + s.lost <= 5
    ensures var b := Letters(s);
      && b.Built? && |b.value| <= 5
      && multiset(b.value)['D'] == s.drawn && multiset(b.value)['L'] == s.lost
      && multiset(b.value)['W'] == |b.value| - s.drawn - s.lost
  {
    var w := Segment('W', s.won >= 3, IntMin(s.won, 5));
    var d := Segment('D', s.drawn >= 1, IntMin(s.drawn, 5 - s.won));
    var l := Segment('L', s.lost >= 1, IntMin(s.lost, 5 - s.won - s.drawn));
    var nw := if s.won >= 3 then s.won else 0;
    LettersCount(w.value, 'W', nw);
    LettersCount(d.value, 'D', s.drawn);
    LettersCount(l.value, 'L', s.lost);
    assert Letters(s) == Built(w.value + d.value + l.value);
    JoinedCounts(w.value, d.value, l.value);
  }

  /** Counting letters in the three pieces of the template literal. */
  lemma JoinedCounts(w: string, d: string, l: string)
    requires forall x :: x != 'W' ==> multiset(w)[x] == 0
    requires forall x :: x != 'D' ==> multiset(d)[x] == 0
    requires forall x :: x != 'L' ==> multiset(l)[x] == 0
    ensures multiset(w + d + l)['D'] == multiset(d)['D']
    ensures multiset(w + d + l)['L'] == multiset(l)['L']
    ensures multiset(w + d + l)['W'] == multiset(w)['W']
  {
    assert multiset(w + d + l) == multiset(w) + multiset(d) + multiset(l);
  }

  lemma FitToShort(t: string, n: nat, c: char)
    requires |t| <= n
    ensures FitTo(t, n, c) == t + seq(n - |t|, i => c)
  {
  }

  /** `value_spots`: the betting label for the prediction. */
  function ValueSpot(pr: DC.Prediction): (spot: string)
    ensures spot == "Home win shows value" <==> pr.pHome > 0.45
    ensures spot == "Away value potential" <==> pr.pHome <= 0.45 && pr.pAway > 0.4
    ensures spot == "Draw consideration" <==> pr.pHome <= 0.45 && pr.pAway <= 0.4
  {
    if pr.pHome > 0.45 then "Home win shows value"
    else if pr.pAway > 0.4 then "Away value potential"
    else "Draw consideration"
  }

  /** Against a normalised prediction the draw label means a draw probability of at least 0.15. */
  lemma DrawLabelLeavesDraws(pr: DC.Prediction)
    requires pr.pHome + pr.pDraw + pr.pAway == 1.0
    ensures ValueSpot(pr) == "Draw consideration" ==> pr.pDraw >= 0.15
  {
  }

  // ----- the handler -----

  /** The parts of the request the handler reads; query parameters are absent or strings. */
  datatype Request = Request(httpMethod: string, fixtureId: Option<string>, league: Option<string>)

  /** The analysis record, without its constant texts and its `toFixed` renderings. */
  datatype Report = Report(
    teams: string, venue: string, leagueName: string, date: string,
    expectedGoalsHome: real, expectedGoalsAway: real, ratings: Ratings,
    homeForm: Form, awayForm: Form, homeLastFive: string, awayLastFive: string,
    pHome: real, pDraw: real, pAway: real, valueSpot: string)

  datatype Body = NoBody | Error(message: string) | Analysed(report: Report)

  datatype Response = Response(status: int, body: Body)

  /** `req.query.league || 'premier-league'`. */
  function LeagueKey(req: Request): string {
    if Truthy(req.league) then req.league.value else "premier-league"
  }

  /** `fixtures.find(f => f.id == fixtureId)`. */
  function FindFixture(fixtures: seq<Fixture>, id: string): (r: Option<Fixture>)
    ensures r.None? <==> forall i :: 0 <= i < |fixtures| ==> fixtures[i].id != id
    ensures r.Some? ==> r.value.id == id && r.value in fixtures
    ensures r.Some? ==> exists i :: 0 <= i < |fixtures| && fixtures[i] == r.value && forall j :: 0 <= j < i ==> fixtures[j].id != id
  {
    Find(fixtures, (f: Fixture) => f.id == id)
  }

  /** The message of the RangeError `repeat` throws. */
  function InvalidCountMessage(n: int): string {
    "Invalid count value: " + DecimalString(n)
  }

  /** The analysis of a found fixture, or the negative count one of the form strings hit. */
  function Analyse(exp: DC.PosFn, fixture: Fixture, league: League, recent: seq<MatchResult>, standings: seq<Standing>): Built<Report> {
    var home := FormOf(recent, fixture.homeTeam, HomeSide);
    var away := FormOf(recent, fixture.awayTeam, AwaySide);
    var ratings := SafeRatings(home, away, standings);
    var pr := Forecast(exp, ratings);
    match FormStrings(fixture, standings)
    case InvalidCount(n) => InvalidCount(n)
    case Built(forms) =>
      Built(Report(
        fixture.homeTeam + " vs " + fixture.awayTeam, fixture.venue, league.name, fixture.date,
        ExpectedGoalsHome(ratings), ExpectedGoalsAway(ratings), ratings,
        home, away, forms.0, forms.1,
        pr.pHome, pr.pDraw, pr.pAway, ValueSpot(pr)))
  }

  /** Both `last_5_games` strings, home first, or the count of the first `repeat` that throws. */
  function FormStrings(fixture: Fixture, standings: seq<Standing>): Built<(string, string)> {
    var homeLast := LastFive(FindTeam(standings, fixture.homeTeam), "WWLDW");
    var awayLast := LastFive(FindTeam(standings, fixture.awayTeam), "WDLWW");
    if homeLast.InvalidCount? then InvalidCount(homeLast.count)
    else if awayLast.InvalidCount? then InvalidCount(awayLast.count)
    else Built((homeLast.value, awayLast.value))
  }

  /**
   * The handler, once the fixture list, the recent results and the table of
   * the requested league are fetched.
   */
  function Handle(exp: DC.PosFn, req: Request, fixtures: seq<Fixture>, recent: seq<MatchResult>, standings: seq<Standing>): (res: Response)
    ensures res.status == 200 && res.body == NoBody <==> req.httpMethod == "OPTIONS"
    ensures res.status == 405 <==> req.httpMethod != "OPTIONS" && req.httpMethod != "GET"
    ensures res.status == 400 <==> req.httpMethod == "GET" && (!Truthy(req.fixtureId) || LeagueKey(req) !in Leagues)
    ensures res.status == 404 <==> (req.httpMethod == "GET" && Truthy(req.fixtureId) && LeagueKey(req) in Leagues
      && FindFixture(fixtures, req.fixtureId.value).None?)
    ensures res.status == 500 <==> (req.httpMethod == "GET" && Truthy(req.fixtureId) && LeagueKey(req) in Leagues
      && FindFixture(fixtures, req.fixtureId.value).Some?
      && FormStrings(FindFixture(fixtures, req.fixtureId.value).value, standings).InvalidCount?)
    ensures res.status == 500 ==> res.body.Error?
    ensures res.body.Analysed? <==> res.status == 200 && req.httpMethod == "GET"
  {
    if req.httpMethod == "OPTIONS" then Response(200, NoBody)
    else if req.httpMethod != "GET" then Response(405, Error("Method not allowed"))
    else
      var league := LeagueKey(req);
      if !Truthy(req.fixtureId) then Response(400, Error("fixture_id required"))
      else if league !in Leagues then Response(400, Error("League '" + league + "' not supported"))
      else match FindFixture(fixtures, req.fixtureId.value)
        case None => Response(404, Error("Fixture not found"))
        case Some(fixture) =>
          match Analyse(exp, fixture, Leagues[league], recent, standings)
          case InvalidCount(n) => Response(500, Error(InvalidCountMessage(n)))
          case Built(report) => Response(200, Analysed(report))
  }

  predicate Throws(s: Standing) {
    (s.drawn >= 1 && s.won > 5) || (s.lost >= 1 && s.won + s.drawn > 5)
  }

  /** The form strings fail exactly when one hits a negative count for a team the table holds, and are five letters otherwise. */
  lemma FormStringsShape(fixture: Fixture, standings: seq<Standing>)
    ensures var home := FindTeam(standings, fixture.homeTeam);
      var away := FindTeam(standings, fixture.awayTeam);
      var forms := FormStrings(fixture, standings);
      && (forms.InvalidCount? <==> (home.Some? && Throws(home.value)) || (away.Some? && Throws(away.value)))
      && (forms.Built? ==> |forms.value.0| == 5 && |forms.value.1| == 5)
  {
    var home := FindTeam(standings, fixture.homeTeam);
    var away := FindTeam(standings, fixture.awayTeam);
    if home.Some? { LastFiveShape(home.value, "WWLDW"); }
    if away.Some? { LastFiveShape(away.value, "WDLWW"); }
  }

  /** The analysis of a fixture fails exactly when a form string does. */
  lemma AnalyseFails(exp: DC.PosFn, fixture: Fixture, league: League, recent: seq<MatchResult>, standings: seq<Standing>)
    ensures var home := FindTeam(standings, fixture.homeTeam);
      var away := FindTeam(standings, fixture.awayTeam);
      var failed := Analyse(exp, fixture, league, recent, standings).InvalidCount?;
      failed <==> (home.Some? && Throws(home.value)) || (away.Some? && Throws(away.value))
  {
    FormStringsShape(fixture, standings);
  }

  /**
   * What a successful analysis reports: the fixture's own data, ratings in
   * [0.6, 2.5] from both teams' recent form, the model's probabilities
   * summing to 1 with the label chosen from them, the model's own expected
   * goals and five-letter form strings.
   */
  lemma AnalyseReport(exp: DC.PosFn, fixture: Fixture, league: League, recent: seq<MatchResult>, standings: seq<Standing>)
    requires FormStrings(fixture, standings).Built?
    ensures Analyse(exp, fixture, league, recent, standings).Built?
    ensures var rep := Analyse(exp, fixture, league, recent, standings).value;
      && rep.leagueName == league.name && rep.venue == fixture.venue && rep.date == fixture.date
      && rep.teams == fixture.homeTeam + " vs " + fixture.awayTeam
      && rep.homeForm == FormOf(recent, fixture.homeTeam, HomeSide)
      && rep.awayForm == FormOf(recent, fixture.awayTeam, AwaySide)
      && rep.ratings == SafeRatings(rep.homeForm, rep.awayForm, standings)
      && Safe(rep.ratings)
      && rep.pHome + rep.pDraw + rep.pAway == 1.0
      && 0.0 <= rep.pHome <= 1.0 && 0.0 <= rep.pDraw <= 1.0 && 0.0 <= rep.pAway <= 1.0
      && rep.pHome == Forecast(exp, rep.ratings).pHome && rep.pAway == Forecast(exp, rep.ratings).pAway
      && rep.expectedGoalsHome == Forecast(exp, rep.ratings).expectedGoalsHome
      && rep.expectedGoalsAway == Forecast(exp, rep.ratings).expectedGoalsAway
      && rep.valueSpot == ValueSpot(Forecast(exp, rep.ratings))
      && |rep.homeLastFive| == 5 && |rep.awayLastFive| == 5
  {
    FormStringsShape(fixture, standings);
  }

  /**
   * A GET naming a fixture of a supported league whose form strings build is
   * answered 200 with the analysis of that fixture; with `Handle`'s own
   * contract, every report is of this kind.
   */
  lemma HandleReport(exp: DC.PosFn, req: Request, fixtures: seq<Fixture>, recent: seq<MatchResult>, standings: seq<Standing>)
    requires req.httpMethod == "GET" && Truthy(req.fixtureId) && LeagueKey(req) in Leagues
    requires FindFixture(fixtures, req.fixtureId.value).Some?
    requires FormStrings(FindFixture(fixtures, req.fixtureId.value).value, standings).Built?
    ensures var fixture := FindFixture(fixtures, req.fixtureId.value).value;
      && Analyse(exp, fixture, Leagues[LeagueKey(req)], recent, standings).Built?
      && Handle(exp, req, fixtures, recent, standings)
         == Response(200, Analysed(Analyse(exp, fixture, Leagues[LeagueKey(req)], recent, standings).value))
  {
  }

}
