/**
 * The Dixon-Coles outcome engine: a Poisson goal model over a truncated score
 * grid with a correction for the four low-score cells, the rating heuristics
 * that feed it, and the legacy entry point that takes expected goals directly.
 * Numbers are mathematical reals. `Math.exp` is a parameter that is only known
 * to be positive; it is applied once per side, and the grid works with the two
 * values Math.exp(-lambdaHome) and Math.exp(-lambdaAway).
 */
module DixonColes {
  import opened Wrappers

  /** Stands for `Math.exp`: the model relies only on its values being positive. */
  type PosFn = f: real -> real | forall x :: f(x) > 0.0 witness (x: real) => 1.0

  function Max(a: real, b: real): real { if a >= b then a else b }
  function Min(a: real, b: real): real { if a <= b then a else b }

  // ----- Poisson probabilities -----

  /** `factorial` from the source, over JavaScript numbers. */
  function Factorial(n: int): (r: real)
    ensures r >= 1.0
    decreases n
  {
    if n <= 1 then 1.0 else (n as real) * Factorial(n - 1)
  }

  lemma FactorialStep(k: nat)
    ensures Factorial(k + 1) == ((k + 1) as real) * Factorial(k)
  {
  }

  /** The ascending product lo * (lo + 1) * ... * hi, 1 for an empty range. */
  function RangeProduct(lo: int, hi: int): real
    decreases hi - lo
  {
    if lo > hi then 1.0 else (lo as real) * RangeProduct(lo + 1, hi)
  }

  lemma {:induction false} RangeProductTop(lo: int, hi: int)
    requires lo <= hi
    ensures RangeProduct(lo, hi) == RangeProduct(lo, hi - 1) * (hi as real)
    decreases hi - lo
  {
    if lo < hi {
      RangeProductTop(lo + 1, hi);
    }
  }

  /** The recursive factorial equals the iterative product 2 * 3 * ... * n. */
  lemma {:induction false} FactorialIsRangeProduct(n: int)
    ensures Factorial(n) == RangeProduct(2, n)
    decreases n
  {
    if n > 1 {
      FactorialIsRangeProduct(n - 1);
      RangeProductTop(2, n);
    }
  }

  /** `Math.pow(x, k)` for a natural exponent. */
  function Pow(x: real, k: nat): real {
    if k == 0 then 1.0 else x * Pow(x, k - 1)
  }

  lemma PowStep(x: real, k: nat)
    ensures Pow(x, k + 1) == x * Pow(x, k)
  {
  }

  lemma {:induction false} PowSign(x: real, k: nat)
    ensures x >= 0.0 ==> Pow(x, k) >= 0.0
    ensures x > 0.0 ==> Pow(x, k) > 0.0
    ensures x == 0.0 && k > 0 ==> Pow(x, k) == 0.0
  {
    if k > 0 {
      PowSign(x, k - 1);
    }
  }

  /** `poisson(lambda, k)`: e * lambda^k / k!, where `e` is the value of Math.exp(-lambda). */
  function Poisson(e: real, rate: real, k: nat): real {
    e * Pow(rate, k) / Factorial(k)
  }

  /** A Poisson probability is never negative, and the zero-goal one is Math.exp(-lambda). */
  lemma PoissonSign(e: real, rate: real, k: nat)
    requires e > 0.0
    ensures rate >= 0.0 ==> Poisson(e, rate, k) >= 0.0
    ensures rate > 0.0 ==> Poisson(e, rate, k) > 0.0
    ensures k == 0 ==> Poisson(e, rate, k) == e
  {
    PowSign(rate, k);
    var q := Pow(rate, k);
    var f := Factorial(k);
    if rate >= 0.0 {
      assert e * q >= 0.0;
    }
    if rate > 0.0 {
      assert e * q > 0.0;
    }
  }

  /** Consecutive Poisson probabilities differ by the factor rate / (k + 1). */
  lemma PoissonStep(e: real, rate: real, k: nat)
    ensures Poisson(e, rate, k + 1) == Poisson(e, rate, k) * rate / ((k + 1) as real)
  {
    FactorialStep(k);
    PowStep(rate, k);
    ShiftFactor(e, Pow(rate, k), Factorial(k), rate, (k + 1) as real);
  }

  /** e * (rate * q) / (c * f) == (e * q / f) * rate / c */
  lemma ShiftFactor(e: real, q: real, f: real, rate: real, c: real)
    requires f > 0.0 && c > 0.0
    ensures e * (rate * q) / (c * f) == (e * q / f) * rate / c
  {
    var now := e * q / f;
    assert now * f == e * q;
    assert (now * rate / c) * (c * f) == now * rate * f;
  }

  // ----- The low-score correction -----

  /** The entries of the `corrections` table, looked up by the key "homeGoals-awayGoals". */
  function CorrectionTable(homeGoals: int, awayGoals: int, lambdaHome: real, lambdaAway: real, rho: real): Option<real> {
    if homeGoals == 0 && awayGoals == 0 then Some(1.0 - lambdaHome * lambdaAway * rho)
    else if homeGoals == 1 && awayGoals == 0 then Some(1.0 + lambdaAway * rho)
    else if homeGoals == 0 && awayGoals == 1 then Some(1.0 + lambdaHome * rho)
    else if homeGoals == 1 && awayGoals == 1 then Some(1.0 - rho)
    else None
  }

  predicate LowScore(homeGoals: int, awayGoals: int) {
    0 <= homeGoals <= 1 && 0 <= awayGoals <= 1
  }

  /**
   * The Dixon-Coles factor of a cell. `corrections[key] || 1` turns a missing key
   * and a factor that is exactly 0 into 1, so the result is never 0.
   */
  function Correction(homeGoals: int, awayGoals: int, lambdaHome: real, lambdaAway: real, rho: real): (r: real)
    ensures r != 0.0
    ensures !LowScore(homeGoals, awayGoals) ==> r == 1.0
    ensures rho == 0.0 ==> r == 1.0
  {
    if homeGoals > 1 || awayGoals > 1 then 1.0
    else
      match CorrectionTable(homeGoals, awayGoals, lambdaHome, lambdaAway, rho)
      case Some(v) => if v == 0.0 then 1.0 else v
      case None => 1.0
  }

  /** The four low-score factors, each falling back to 1 where it evaluates to 0. */
  lemma LowScoreFactors(homeGoals: int, awayGoals: int, lambdaHome: real, lambdaAway: real, rho: real)
    ensures homeGoals == 0 && awayGoals == 0 ==>
      Correction(homeGoals, awayGoals, lambdaHome, lambdaAway, rho) == if lambdaHome * lambdaAway * rho == 1.0 then 1.0 else 1.0 - lambdaHome * lambdaAway * rho
    ensures homeGoals == 1 && awayGoals == 0 ==>
      Correction(homeGoals, awayGoals, lambdaHome, lambdaAway, rho) == if lambdaAway * rho == -1.0 then 1.0 else 1.0 + lambdaAway * rho
    ensures homeGoals == 0 && awayGoals == 1 ==>
      Correction(homeGoals, awayGoals, lambdaHome, lambdaAway, rho) == if lambdaHome * rho == -1.0 then 1.0 else 1.0 + lambdaHome * rho
    ensures homeGoals == 1 && awayGoals == 1 ==> Correction(homeGoals, awayGoals, lambdaHome, lambdaAway, rho) == if rho == 1.0 then 1.0 else 1.0 - rho
  {
  }

  /** With rho = 1 the 1-1 factor evaluates to 0 and falls back to 1. */
  lemma ZeroFactorFallsBack(lambdaHome: real, lambdaAway: real)
    ensures CorrectionTable(1, 1, lambdaHome, lambdaAway, 1.0) == Some(0.0)
    ensures Correction(1, 1, lambdaHome, lambdaAway, 1.0) == 1.0
  {
  }

  // ----- Rating heuristics -----

  datatype TeamStats = TeamStats(
    goalsFor: real, goalsAgainst: real, matchesPlayed: real,
    last5Goals: real, last5Conceded: real, last5Matches: real,
    homeGoalsFor: real, homeMatches: real,
    awayGoalsAgainst: real, awayMatches: real)

  /** goals / Math.max(matches, 1) */
  function PerMatch(goals: real, matches: real): real {
    goals / Max(matches, 1.0)
  }

  /** 40% recent form, 35% season average, 25% venue rate. */
  function Blend(recent: real, season: real, venue: real): real {
    recent * 0.4 + season * 0.35 + venue * 0.25
  }

  function AttackRating(s: TeamStats): (r: real)
    ensures r >= 0.5
    ensures r >= Blend(PerMatch(s.last5Goals, s.last5Matches), PerMatch(s.goalsFor, s.matchesPlayed), PerMatch(s.homeGoalsFor, s.homeMatches))
    ensures r == 0.5 || r == Blend(PerMatch(s.last5Goals, s.last5Matches), PerMatch(s.goalsFor, s.matchesPlayed), PerMatch(s.homeGoalsFor, s.homeMatches))
  {
    var seasonAvg := PerMatch(s.goalsFor, s.matchesPlayed);
    var recentForm := PerMatch(s.last5Goals, s.last5Matches);
    var homeRate := PerMatch(s.homeGoalsFor, s.homeMatches);
    Max(Blend(recentForm, seasonAvg, homeRate), 0.5)
  }

  function DefenseRating(s: TeamStats): (r: real)
    ensures r >= 0.5
    ensures r >= Blend(PerMatch(s.last5Conceded, s.last5Matches), PerMatch(s.goalsAgainst, s.matchesPlayed), PerMatch(s.awayGoalsAgainst, s.awayMatches))
    ensures r == 0.5 || r == Blend(PerMatch(s.last5Conceded, s.last5Matches), PerMatch(s.goalsAgainst, s.matchesPlayed), PerMatch(s.awayGoalsAgainst, s.awayMatches))
  {
    var seasonAvg := PerMatch(s.goalsAgainst, s.matchesPlayed);
    var recentForm := PerMatch(s.last5Conceded, s.last5Matches);
    var awayRate := PerMatch(s.awayGoalsAgainst, s.awayMatches);
    Max(Blend(recentForm, seasonAvg, awayRate), 0.5)
  }

  /** The defence rating is the attack formula applied to goals conceded and the away split. */
  lemma DefenseIsAttackOfConceded(s: TeamStats)
    ensures DefenseRating(s) == AttackRating(s.(goalsFor := s.goalsAgainst, last5Goals := s.last5Conceded,
                                                 homeGoalsFor := s.awayGoalsAgainst, homeMatches := s.awayMatches))
  {
  }

  /** A team with no goals sits exactly on the floor. */
  lemma GoallessTeamOnFloor(s: TeamStats)
    requires s.goalsFor == 0.0 && s.last5Goals == 0.0 && s.homeGoalsFor == 0.0
    ensures AttackRating(s) == 0.5
  {
  }

  datatype VenueStats = VenueStats(
    homeWins: real, homeDraws: real, homeLosses: real,
    homeGoalsFor: real, homeGoalsAgainst: real, totalHomeMatches: real)

  function HomeWinRate(v: VenueStats): real {
    PerMatch(v.homeWins, v.totalHomeMatches)
  }

  function HomeGoalDiffPerGame(v: VenueStats): real {
    PerMatch(v.homeGoalsFor - v.homeGoalsAgainst, v.totalHomeMatches)
  }

  /** The win-rate step of the home-advantage policy. */
  function WinRateAdjustment(winRate: real): real {
    if winRate > 0.6 then 0.15 else if winRate < 0.3 then -0.15 else 0.0
  }

  /** The goal-difference step of the home-advantage policy. */
  function GoalDiffAdjustment(goalDiffPerGame: real): real {
    if goalDiffPerGame > 1.0 then 0.1 else if goalDiffPerGame < -0.5 then -0.1 else 0.0
  }

  /** Starts at 1.35, adjusts twice, clamps to [1.0, 1.8]; the clamp never binds. */
  method CalculateHomeAdvantage(v: VenueStats) returns (r: real)
    ensures r == 1.35 + WinRateAdjustment(HomeWinRate(v)) + GoalDiffAdjustment(HomeGoalDiffPerGame(v))
    ensures 1.1 <= r <= 1.6
  {
    var homeWinRate := v.homeWins / Max(v.totalHomeMatches, 1.0);
    var homeGoalDiff := (v.homeGoalsFor - v.homeGoalsAgainst) / Max(v.totalHomeMatches, 1.0);
    var homeAdvantage := 1.35;
    if homeWinRate > 0.6 {
      homeAdvantage := homeAdvantage + 0.15;
    } else if homeWinRate < 0.3 {
      homeAdvantage := homeAdvantage - 0.15;
    }
    if homeGoalDiff > 1.0 {
      homeAdvantage := homeAdvantage + 0.1;
    } else if homeGoalDiff < -0.5 {
      homeAdvantage := homeAdvantage - 0.1;
    }
    r := Max(Min(homeAdvantage, 1.8), 1.0);
  }


  // ----- The score grid -----

  /**
   * Everything a grid cell depends on: the expected goals of both sides, the
   * correlation strength, and the values of Math.exp(-home) and Math.exp(-away).
   */
  datatype Rates = Rates(home: real, away: real, rho: real, expHome: real, expAway: real)

  /** The rates a cell proof relies on: exponentials positive, expected goals not negative. */
  predicate Plausible(r: Rates) {
    r.expHome > 0.0 && r.expAway > 0.0 && r.home >= 0.0 && r.away >= 0.0
  }

  datatype Outcome = HomeWin | Draw | AwayWin

  const AllOutcomes: set<Outcome> := {HomeWin, Draw, AwayWin}

  /** The bucket of the score i-j: exactly one of the three. */
  function OutcomeOf(i: int, j: int): Outcome {
    if i > j then HomeWin else if i == j then Draw else AwayWin
  }

  datatype Totals = Totals(home: real, draw: real, away: real) {
    function Sum(): real { home + draw + away }
  }

  function Credit(t: Totals, o: Outcome, p: real): Totals {
    match o
    case HomeWin => t.(home := t.home + p)
    case Draw => t.(draw := t.draw + p)
    case AwayWin => t.(away := t.away + p)
  }

  /** The corrected probability of the score i-j. */
  function Cell(r: Rates, i: nat, j: nat): real {
    Poisson(r.expHome, r.home, i) * Poisson(r.expAway, r.away, j) * Correction(i, j, r.home, r.away, r.rho)
  }

  /** `t` after adding the cells (i, 0) .. (i, j - 1) of the grid of `r`, in that order. */
  function RowTally(r: Rates, t: Totals, i: nat, j: nat): Totals {
    if j == 0 then t
    else Credit(RowTally(r, t, i, j - 1), OutcomeOf(i, j - 1), Cell(r, i, j - 1))
  }

  /** The totals after rows 0 .. rows - 1 of a grid with n columns, row by row. */
  function GridTally(r: Rates, n: nat, rows: nat): Totals {
    if rows == 0 then Totals(0.0, 0.0, 0.0)
    else RowTally(r, GridTally(r, n, rows - 1), rows - 1, n)
  }

  lemma RowTallyStep(r: Rates, t: Totals, i: nat, j: nat)
    ensures RowTally(r, t, i, j + 1) == Credit(RowTally(r, t, i, j), OutcomeOf(i, j), Cell(r, i, j))
  {
  }

  lemma GridTallyStep(r: Rates, n: nat, rows: nat)
    ensures GridTally(r, n, rows + 1) == RowTally(r, GridTally(r, n, rows), rows, n)
  {
  }

  // Reference sums: the mass of the cells whose outcome lies in `os`.

  function MaskedCell(r: Rates, i: nat, j: nat, os: set<Outcome>): real {
    if OutcomeOf(i, j) in os then Cell(r, i, j) else 0.0
  }

  function RowMass(r: Rates, i: nat, m: nat, os: set<Outcome>): real {
    if m == 0 then 0.0 else RowMass(r, i, m - 1, os) + MaskedCell(r, i, m - 1, os)
  }

  function GridMass(r: Rates, n: nat, rows: nat, os: set<Outcome>): real {
    if rows == 0 then 0.0 else GridMass(r, n, rows - 1, os) + RowMass(r, rows - 1, n, os)
  }

  lemma {:induction false} RowTallyIsMass(r: Rates, t: Totals, i: nat, j: nat)
    ensures RowTally(r, t, i, j).home == t.home + RowMass(r, i, j, {HomeWin})
    ensures RowTally(r, t, i, j).draw == t.draw + RowMass(r, i, j, {Draw})
    ensures RowTally(r, t, i, j).away == t.away + RowMass(r, i, j, {AwayWin})
    ensures RowTally(r, t, i, j).Sum() == t.Sum() + RowMass(r, i, j, AllOutcomes)
  {
    if j > 0 {
      RowTallyIsMass(r, t, i, j - 1);
    }
  }

  /**
   * Each bucket of the row-by-row tally is the mass of exactly the cells of
   * that outcome, and the three buckets together hold the mass of the whole grid.
   */
  lemma {:induction false} GridTallyIsMass(r: Rates, n: nat, rows: nat)
    ensures GridTally(r, n, rows).home == GridMass(r, n, rows, {HomeWin})
    ensures GridTally(r, n, rows).draw == GridMass(r, n, rows, {Draw})
    ensures GridTally(r, n, rows).away == GridMass(r, n, rows, {AwayWin})
    ensures GridTally(r, n, rows).Sum() == GridMass(r, n, rows, AllOutcomes)
  {
    if rows > 0 {
      GridTallyIsMass(r, n, rows - 1);
      RowTallyIsMass(r, GridTally(r, n, rows - 1), rows - 1, n);
    }
  }

  /** Cells a..m-1 of row i that are not negative only add to the first a. */
  lemma {:induction false} RowMassTail(r: Rates, i: nat, a: nat, m: nat, os: set<Outcome>)
    requires a <= m
    requires forall k: nat :: a <= k < m ==> MaskedCell(r, i, k, os) >= 0.0
    ensures RowMass(r, i, m, os) >= RowMass(r, i, a, os)
    decreases m
  {
    if a < m {
      RowMassTail(r, i, a, m - 1, os);
    }
  }

  /** Rows a..rows-1 whose mass is not negative only add to the first a. */
  lemma {:induction false} GridMassTail(r: Rates, n: nat, a: nat, rows: nat, os: set<Outcome>)
    requires a <= rows
    requires forall i: nat :: a <= i < rows ==> RowMass(r, i, n, os) >= 0.0
    ensures GridMass(r, n, rows, os) >= GridMass(r, n, a, os)
    decreases rows
  {
    if a < rows {
      GridMassTail(r, n, a, rows - 1, os);
    }
  }

  lemma GridMassTwoRows(r: Rates, n: nat, os: set<Outcome>)
    ensures GridMass(r, n, 2, os) == RowMass(r, 0, n, os) + RowMass(r, 1, n, os)
  {
    assert GridMass(r, n, 1, os) == RowMass(r, 0, n, os);
  }

  lemma RowMassFirstTwo(r: Rates, i: nat, os: set<Outcome>)
    ensures RowMass(r, i, 1, os) == MaskedCell(r, i, 0, os)
    ensures RowMass(r, i, 2, os) == MaskedCell(r, i, 0, os) + MaskedCell(r, i, 1, os)
  {
    assert RowMass(r, i, 1, os) == MaskedCell(r, i, 0, os);
  }

  lemma MaskedAll(r: Rates, i: nat, j: nat)
    ensures MaskedCell(r, i, j, AllOutcomes) == Cell(r, i, j)
  {
  }

  // ----- Why the total is never zero -----

  lemma PoissonLow(e: real, rate: real)
    ensures Poisson(e, rate, 0) == e
    ensures Poisson(e, rate, 1) == e * rate
  {
  }

  /** A cell outside the low-score block is an uncorrected product of probabilities. */
  lemma HighCellNonNegative(r: Rates, i: nat, j: nat)
    requires Plausible(r)
    requires !LowScore(i, j)
    ensures Cell(r, i, j) >= 0.0
  {
    PoissonSign(r.expHome, r.home, i);
    PoissonSign(r.expAway, r.away, j);
    var a := Poisson(r.expHome, r.home, i);
    var b := Poisson(r.expAway, r.away, j);
    assert a * b >= 0.0;
  }

  /** The fallback only raises a factor: the applied factor is at least the table entry. */
  lemma CorrectionAtLeastEntry(i: nat, j: nat, lambdaHome: real, lambdaAway: real, rho: real)
    requires LowScore(i, j)
    ensures Correction(i, j, lambdaHome, lambdaAway, rho) >= CorrectionTable(i, j, lambdaHome, lambdaAway, rho).GetOr(1.0)
  {
  }

  lemma ScaleBound(w: real, f: real, v: real)
    requires w >= 0.0 && f >= v
    ensures w * f >= w * v
  {
  }

  /** A low-score cell is at least its two Poisson terms times the raw table entry. */
  lemma LowCellBound(r: Rates, i: nat, j: nat, a: real, b: real)
    requires LowScore(i, j)
    requires a == Poisson(r.expHome, r.home, i) && b == Poisson(r.expAway, r.away, j)
    requires a >= 0.0 && b >= 0.0
    ensures Cell(r, i, j) >= (a * b) * CorrectionTable(i, j, r.home, r.away, r.rho).GetOr(1.0)
  {
    CorrectionAtLeastEntry(i, j, r.home, r.away, r.rho);
    assert a * b >= 0.0;
    ScaleBound(a * b, Correction(i, j, r.home, r.away, r.rho), CorrectionTable(i, j, r.home, r.away, r.rho).GetOr(1.0));
  }

  /** The raw low-score entries, weighted by their Poisson terms, add up to e_h e_a (1 + l_h)(1 + l_a): rho cancels. */
  lemma LowEntriesCancel(eh: real, ea: real, lh: real, la: real, rho: real)
    ensures (eh * ea) * (1.0 - lh * la * rho) + ((eh * lh) * ea) * (1.0 + la * rho)
          + (eh * (ea * la)) * (1.0 + lh * rho) + ((eh * lh) * (ea * la)) * (1.0 - rho)
         == eh * ea * ((1.0 + lh) * (1.0 + la))
  {
  }

  lemma LowBlockArith(eh: real, ea: real, lh: real, la: real, rho: real, c00: real, c10: real, c01: real, c11: real)
    requires eh > 0.0 && ea > 0.0 && lh >= 0.0 && la >= 0.0
    requires c00 >= (eh * ea) * (1.0 - lh * la * rho)
    requires c10 >= ((eh * lh) * ea) * (1.0 + la * rho)
    requires c01 >= (eh * (ea * la)) * (1.0 + lh * rho)
    requires c11 >= ((eh * lh) * (ea * la)) * (1.0 - rho)
    ensures c00 + c10 + c01 + c11 >= eh * ea * ((1.0 + lh) * (1.0 + la)) > 0.0
  {
    LowEntriesCancel(eh, ea, lh, la, rho);
    assert (1.0 + lh) * (1.0 + la) >= 1.0;
    assert eh * ea > 0.0;
  }

  /** The four low-score cells together hold at least e_h e_a (1 + l_h)(1 + l_a) > 0. */
  lemma LowBlockPositive(r: Rates)
    requires Plausible(r)
    ensures Cell(r, 0, 0) + Cell(r, 1, 0) + Cell(r, 0, 1) + Cell(r, 1, 1) > 0.0
  {
    var eh, ea, lh, la := r.expHome, r.expAway, r.home, r.away;
    PoissonLow(eh, lh);
    PoissonLow(ea, la);
    assert eh * lh >= 0.0 && ea * la >= 0.0;
    LowCellBound(r, 0, 0, eh, ea);
    LowCellBound(r, 1, 0, eh * lh, ea);
    LowCellBound(r, 0, 1, eh, ea * la);
    LowCellBound(r, 1, 1, eh * lh, ea * la);
    LowBlockArith(eh, ea, lh, la, r.rho, Cell(r, 0, 0), Cell(r, 1, 0), Cell(r, 0, 1), Cell(r, 1, 1));
  }

  /** The 0-0 cell alone: e_h e_a times a factor that is never 0. */
  lemma GoallessCellNonZero(r: Rates)
    requires Plausible(r)
    ensures Cell(r, 0, 0) != 0.0
  {
    PoissonLow(r.expHome, r.home);
    PoissonLow(r.expAway, r.away);
    var c := Correction(0, 0, r.home, r.away, r.rho);
    assert Cell(r, 0, 0) == (r.expHome * r.expAway) * c;
    assert r.expHome * r.expAway > 0.0;
  }

  /** Rows from 2 on hold no negative cell, so their mass is not negative. */
  lemma HighRowsNonNegative(r: Rates, n: nat)
    requires Plausible(r)
    ensures forall i: nat :: 2 <= i < n ==> RowMass(r, i, n, AllOutcomes) >= 0.0
  {
    forall i: nat | 2 <= i < n
      ensures RowMass(r, i, n, AllOutcomes) >= 0.0
    {
      forall k: nat | k < n
        ensures MaskedCell(r, i, k, AllOutcomes) >= 0.0
      {
        MaskedAll(r, i, k);
        HighCellNonNegative(r, i, k);
      }
      RowMassTail(r, i, 0, n, AllOutcomes);
    }
  }

  /** Rows 0 and 1 hold at least their first two cells. */
  lemma LowRowAtLeastFirstTwo(r: Rates, i: nat, n: nat)
    requires Plausible(r)
    requires i < 2 <= n
    ensures RowMass(r, i, n, AllOutcomes) >= Cell(r, i, 0) + Cell(r, i, 1)
  {
    forall k: nat | 2 <= k < n
      ensures MaskedCell(r, i, k, AllOutcomes) >= 0.0
    {
      MaskedAll(r, i, k);
      HighCellNonNegative(r, i, k);
    }
    RowMassTail(r, i, 2, n, AllOutcomes);
    RowMassFirstTwo(r, i, AllOutcomes);
    MaskedAll(r, i, 0);
    MaskedAll(r, i, 1);
  }

  /**
   * The tallied grid has a non-zero total whenever the expected goals are not
   * negative, and a positive one once it reaches the score 1-1.
   */
  lemma GridTotalNonZero(r: Rates, n: nat)
    requires Plausible(r)
    requires n >= 1
    ensures GridTally(r, n, n).Sum() != 0.0
    ensures n >= 2 ==> GridTally(r, n, n).Sum() > 0.0
  {
    GridTallyIsMass(r, n, n);
    if n == 1 {
      assert GridMass(r, 1, 1, AllOutcomes) == RowMass(r, 0, 1, AllOutcomes);
      RowMassFirstTwo(r, 0, AllOutcomes);
      MaskedAll(r, 0, 0);
      GoallessCellNonZero(r);
    } else {
      HighRowsNonNegative(r, n);
      GridMassTail(r, n, 2, n, AllOutcomes);
      GridMassTwoRows(r, n, AllOutcomes);
      LowRowAtLeastFirstTwo(r, 0, n);
      LowRowAtLeastFirstTwo(r, 1, n);
      LowBlockPositive(r);
    }
  }

  // ----- Why each share lies in [0, 1] -----

  /**
   * For 0 <= rho <= 1 every cell but 0-0 is non-negative: the 1-0 and 0-1
   * factors are at least 1, and the 1-1 factor is 1 - rho or its fallback 1.
   */
  lemma CellNonNegative(r: Rates, i: nat, j: nat)
    requires Plausible(r) && 0.0 <= r.rho <= 1.0
    requires i != 0 || j != 0
    ensures Cell(r, i, j) >= 0.0
  {
    if !LowScore(i, j) {
      HighCellNonNegative(r, i, j);
    } else {
      PoissonSign(r.expHome, r.home, i);
      PoissonSign(r.expAway, r.away, j);
      var a := Poisson(r.expHome, r.home, i);
      var b := Poisson(r.expAway, r.away, j);
      var c := Correction(i, j, r.home, r.away, r.rho);
      LowScoreFactors(i, j, r.home, r.away, r.rho);
      assert r.home * r.rho >= 0.0 && r.away * r.rho >= 0.0;
      assert c >= 0.0;
      assert a * b >= 0.0;
      assert Cell(r, i, j) == (a * b) * c;
    }
  }

  lemma MaskedNonNegative(r: Rates, i: nat, j: nat, os: set<Outcome>)
    requires Plausible(r) && 0.0 <= r.rho <= 1.0
    requires i != 0 || j != 0 || Draw !in os
    ensures MaskedCell(r, i, j, os) >= 0.0
  {
    if OutcomeOf(i, j) in os {
      CellNonNegative(r, i, j);
    }
  }

  /** The home-win and away-win masses are never negative for 0 <= rho <= 1. */
  lemma {:induction false} DrawlessMassNonNegative(r: Rates, n: nat, rows: nat, os: set<Outcome>)
    requires Plausible(r) && 0.0 <= r.rho <= 1.0 && Draw !in os
    ensures GridMass(r, n, rows, os) >= 0.0
  {
    forall i: nat | i < rows
      ensures RowMass(r, i, n, os) >= 0.0
    {
      forall k: nat | k < n
        ensures MaskedCell(r, i, k, os) >= 0.0
      {
        MaskedNonNegative(r, i, k, os);
      }
      RowMassTail(r, i, 0, n, os);
    }
    GridMassTail(r, n, 0, rows, os);
  }

  /** e_h e_a (1 - l_h l_a rho) + e_h l_h e_a l_a (1 - rho) = e_h e_a (1 + l_h l_a (1 - 2 rho)), not negative for rho <= 1/2. */
  lemma DiagonalArith(eh: real, ea: real, lh: real, la: real, rho: real, c00: real, c11: real)
    requires eh > 0.0 && ea > 0.0 && lh >= 0.0 && la >= 0.0 && 0.0 <= rho <= 0.5
    requires c00 >= (eh * ea) * (1.0 - lh * la * rho)
    requires c11 >= ((eh * lh) * (ea * la)) * (1.0 - rho)
    ensures c00 + c11 >= 0.0
  {
    var w := eh * ea;
    var q := lh * la;
    assert (eh * lh) * (ea * la) == w * q;
    assert w * (1.0 - q * rho) + (w * q) * (1.0 - rho) == w * (1.0 + q * (1.0 - 2.0 * rho));
    assert q >= 0.0 && w > 0.0;
    assert q * (1.0 - 2.0 * rho) >= 0.0;
  }

  /** The 0-0 cell may be negative, but with the 1-1 cell it is not, for rho <= 1/2. */
  lemma DiagonalLowPair(r: Rates)
    requires Plausible(r) && 0.0 <= r.rho <= 0.5
    ensures Cell(r, 0, 0) + Cell(r, 1, 1) >= 0.0
  {
    var eh, ea, lh, la := r.expHome, r.expAway, r.home, r.away;
    PoissonLow(eh, lh);
    PoissonLow(ea, la);
    assert eh * lh >= 0.0 && ea * la >= 0.0;
    LowCellBound(r, 0, 0, eh, ea);
    LowCellBound(r, 1, 1, eh * lh, ea * la);
    DiagonalArith(eh, ea, lh, la, r.rho, Cell(r, 0, 0), Cell(r, 1, 1));
  }

  /** The draw mass of a grid that reaches 1-1 is not negative for 0 <= rho <= 1/2. */
  lemma DrawMassNonNegative(r: Rates, n: nat)
    requires Plausible(r) && 0.0 <= r.rho <= 0.5 && n >= 2
    ensures GridMass(r, n, n, {Draw}) >= 0.0
  {
    var d := {Draw};
    forall i: nat | 2 <= i < n
      ensures RowMass(r, i, n, d) >= 0.0
    {
      forall k: nat | k < n
        ensures MaskedCell(r, i, k, d) >= 0.0
      {
        MaskedNonNegative(r, i, k, d);
      }
      RowMassTail(r, i, 0, n, d);
    }
    GridMassTail(r, n, 2, n, d);
    GridMassTwoRows(r, n, d);
    forall i: nat, k: nat | i < 2 && 2 <= k < n
      ensures MaskedCell(r, i, k, d) >= 0.0
    {
      MaskedNonNegative(r, i, k, d);
    }
    RowMassTail(r, 0, 2, n, d);
    RowMassTail(r, 1, 2, n, d);
    RowMassFirstTwo(r, 0, d);
    RowMassFirstTwo(r, 1, d);
    assert MaskedCell(r, 0, 1, d) == 0.0 && MaskedCell(r, 1, 0, d) == 0.0;
    assert MaskedCell(r, 0, 0, d) == Cell(r, 0, 0) && MaskedCell(r, 1, 1, d) == Cell(r, 1, 1);
    DiagonalLowPair(r);
  }

  /**
   * For 0 <= rho <= 1/2 the three outcome masses are not negative; a grid of
   * the 0-0 cell alone has no home-win and no away-win mass.
   */
  lemma OutcomeMassSigns(r: Rates, n: nat)
    requires Plausible(r) && 0.0 <= r.rho <= 0.5 && n >= 1
    ensures n == 1 ==> GridMass(r, n, n, {HomeWin}) == 0.0 && GridMass(r, n, n, {AwayWin}) == 0.0
    ensures n >= 2 ==> GridMass(r, n, n, {HomeWin}) >= 0.0 && GridMass(r, n, n, {Draw}) >= 0.0 && GridMass(r, n, n, {AwayWin}) >= 0.0
  {
    if n == 1 {
      assert GridMass(r, 1, 1, {HomeWin}) == RowMass(r, 0, 1, {HomeWin});
      assert GridMass(r, 1, 1, {AwayWin}) == RowMass(r, 0, 1, {AwayWin});
      RowMassFirstTwo(r, 0, {HomeWin});
      RowMassFirstTwo(r, 0, {AwayWin});
    } else {
      DrawlessMassNonNegative(r, n, n, {HomeWin});
      DrawlessMassNonNegative(r, n, n, {AwayWin});
      DrawMassNonNegative(r, n);
    }
  }

  /** A total held by the draw alone gives the shares 0, 1 and 0. */
  lemma DrawOnlyShares(d: real)
    requires d != 0.0
    ensures var t := Totals(0.0, d, 0.0); t.home / t.Sum() == 0.0 && t.draw / t.Sum() == 1.0 && t.away / t.Sum() == 0.0
  {
  }

  /** Shares of non-negative totals, or of a total held by the draw alone, lie in [0, 1]. */
  lemma TotalsSharesInUnitRange(t: Totals)
    requires t.Sum() != 0.0
    requires (t.home == 0.0 && t.away == 0.0) || (t.home >= 0.0 && t.draw >= 0.0 && t.away >= 0.0)
    ensures 0.0 <= t.home / t.Sum() <= 1.0 && 0.0 <= t.draw / t.Sum() <= 1.0 && 0.0 <= t.away / t.Sum() <= 1.0
  {
    if t.home == 0.0 && t.away == 0.0 {
      DrawOnlyShares(t.draw);
      assert t == Totals(0.0, t.draw, 0.0);
    } else {
      SharesInUnitRange(t.home, t.draw, t.away);
      SharesInUnitRange(t.draw, t.home, t.away);
      SharesInUnitRange(t.away, t.home, t.draw);
    }
  }

  /**
   * For 0 <= rho <= 1/2 each normalised share of the tallied grid lies in
   * [0, 1]. A grid of the 0-0 cell alone gives 0, 1 and 0.
   */
  lemma GridSharesInUnitRange(r: Rates, n: nat)
    requires Plausible(r) && 0.0 <= r.rho <= 0.5 && n >= 1
    ensures var t := GridTally(r, n, n);
      && t.Sum() != 0.0
      && 0.0 <= t.home / t.Sum() <= 1.0
      && 0.0 <= t.draw / t.Sum() <= 1.0
      && 0.0 <= t.away / t.Sum() <= 1.0
  {
    GridTotalNonZero(r, n);
    GridTallyIsMass(r, n, n);
    OutcomeMassSigns(r, n);
    TotalsSharesInUnitRange(GridTally(r, n, n));
  }

  // ----- predictProbs -----

  /** The named arguments of `predictProbs`, defaults applied. */
  datatype Inputs = Inputs(
    homeAttack: real, homeDefense: real, awayAttack: real, awayDefense: real,
    homeAdvantage: real, leagueAverage: real, rho: real, maxGoals: nat)

  /**
   * The defaults of `predictProbs` for the arguments a caller leaves out.
   * With them the expected home goals are 1.89 (1.35 times 1.4) times the
   * home attack and the away defence, and the away goals 1.4 times the away
   * attack and the home defence.
   */
  function WithDefaults(homeAttack: real, homeDefense: real, awayAttack: real, awayDefense: real): (p: Inputs)
    ensures LambdaHome(p) == 1.89 * homeAttack * awayDefense
    ensures LambdaAway(p) == 1.4 * awayAttack * homeDefense
    ensures p.homeAdvantage == 1.35 && p.leagueAverage == 1.4 && p.rho == 0.1 && p.maxGoals == 6
    ensures p.homeAttack == homeAttack && p.homeDefense == homeDefense
    ensures p.awayAttack == awayAttack && p.awayDefense == awayDefense
  {
    Inputs(homeAttack, homeDefense, awayAttack, awayDefense, 1.35, 1.4, 0.1, 6)
  }

  /** `lambdaHome` in `predictProbs`. */
  function LambdaHome(p: Inputs): real {
    p.homeAttack * p.awayDefense * p.homeAdvantage * p.leagueAverage
  }

  /** `lambdaAway` in `predictProbs`: no venue factor on the away side. */
  function LambdaAway(p: Inputs): real {
    p.awayAttack * p.homeDefense * p.leagueAverage
  }

  /** Math.exp(-x), the factor every Poisson probability of expected goals x carries. */
  function ExpNeg(exp: PosFn, x: real): (y: real)
    ensures y > 0.0
  {
    exp(-x)
  }

  function RatesOf(exp: PosFn, p: Inputs): (r: Rates)
    ensures r.expHome > 0.0 && r.expAway > 0.0
  {
    Rates(LambdaHome(p), LambdaAway(p), p.rho, ExpNeg(exp, LambdaHome(p)), ExpNeg(exp, LambdaAway(p)))
  }

  /** The un-normalised home, draw and away totals over the (maxGoals + 1)^2 grid. */
  function Mass(exp: PosFn, p: Inputs): Totals {
    GridTally(RatesOf(exp, p), p.maxGoals + 1, p.maxGoals + 1)
  }

  /**
   * The division in `predictProbs` is defined whenever both expected goals are
   * not negative, and the total is positive once the grid reaches 1-1.
   */
  lemma MassNonZero(exp: PosFn, p: Inputs)
    requires LambdaHome(p) >= 0.0 && LambdaAway(p) >= 0.0
    ensures Mass(exp, p).Sum() != 0.0
    ensures p.maxGoals >= 1 ==> Mass(exp, p).Sum() > 0.0
  {
    GridTotalNonZero(RatesOf(exp, p), p.maxGoals + 1);
  }

  /** Ratings on their floors of 0.5 and a positive venue factor and league average give positive expected goals. */
  lemma RatedInputsPositive(p: Inputs)
    requires p.homeAttack >= 0.5 && p.homeDefense >= 0.5 && p.awayAttack >= 0.5 && p.awayDefense >= 0.5
    requires p.homeAdvantage > 0.0 && p.leagueAverage > 0.0
    ensures LambdaHome(p) > 0.0 && LambdaAway(p) > 0.0
  {
    assert p.homeAttack * p.awayDefense > 0.0;
    assert p.homeAttack * p.awayDefense * p.homeAdvantage > 0.0;
    assert p.awayAttack * p.homeDefense > 0.0;
  }

  datatype ModelParameters = ModelParameters(
    homeAttack: real, homeDefense: real, awayAttack: real, awayDefense: real,
    homeAdvantage: real, correlationFactor: real)

  datatype Prediction = Prediction(
    pHome: real, pDraw: real, pAway: real,
    expectedGoalsHome: real, expectedGoalsAway: real,
    modelParameters: ModelParameters)

  /** The record `predictProbs` returns: each total over their sum, the expected goals and the inputs echoed back. */
  function Normalise(t: Totals, p: Inputs): Prediction
    requires t.Sum() != 0.0
  {
    Prediction(t.home / t.Sum(), t.draw / t.Sum(), t.away / t.Sum(), LambdaHome(p), LambdaAway(p),
               ModelParameters(p.homeAttack, p.homeDefense, p.awayAttack, p.awayDefense, p.homeAdvantage, p.rho))
  }

  /** What `predictProbs` returns; the source does not guard a zero total, so neither may a caller. */
  function Predict(exp: PosFn, p: Inputs): Prediction
    requires Mass(exp, p).Sum() != 0.0
  {
    Normalise(Mass(exp, p), p)
  }

  lemma SharesSumToOne(a: real, b: real, c: real)
    requires a + b + c != 0.0
    ensures a / (a + b + c) + b / (a + b + c) + c / (a + b + c) == 1.0
  {
    var total := a + b + c;
    assert a / total + b / total + c / total == (a + b + c) / total;
  }

  /** The three probabilities are normalised: they sum to exactly 1. */
  lemma PredictSumsToOne(exp: PosFn, p: Inputs)
    requires Mass(exp, p).Sum() != 0.0
    ensures Predict(exp, p).pHome + Predict(exp, p).pDraw + Predict(exp, p).pAway == 1.0
  {
    var t := Mass(exp, p);
    SharesSumToOne(t.home, t.draw, t.away);
  }

  lemma SharesInUnitRange(a: real, b: real, c: real)
    requires a >= 0.0 && b >= 0.0 && c >= 0.0 && a + b + c > 0.0
    ensures 0.0 <= a / (a + b + c) <= 1.0
  {
  }

  /**
   * For non-negative expected goals and 0 <= rho <= 1/2, which holds for the
   * default 0.1, each of the three probabilities lies in [0, 1].
   */
  lemma PredictInUnitRange(exp: PosFn, p: Inputs)
    requires LambdaHome(p) >= 0.0 && LambdaAway(p) >= 0.0 && 0.0 <= p.rho <= 0.5
    ensures Mass(exp, p).Sum() != 0.0
    ensures 0.0 <= Predict(exp, p).pHome <= 1.0
    ensures 0.0 <= Predict(exp, p).pDraw <= 1.0
    ensures 0.0 <= Predict(exp, p).pAway <= 1.0
  {
    GridSharesInUnitRange(RatesOf(exp, p), p.maxGoals + 1);
  }

  /** Each probability is the mass of its outcome's cells over the mass of the whole grid. */
  lemma PredictIsNormalisedMass(exp: PosFn, p: Inputs)
    requires Mass(exp, p).Sum() != 0.0
    ensures var n := p.maxGoals + 1;
            var g := RatesOf(exp, p);
            var total := GridMass(g, n, n, AllOutcomes);
            && total != 0.0
            && Predict(exp, p).pHome == GridMass(g, n, n, {HomeWin}) / total
            && Predict(exp, p).pDraw == GridMass(g, n, n, {Draw}) / total
            && Predict(exp, p).pAway == GridMass(g, n, n, {AwayWin}) / total
  {
    GridTallyIsMass(RatesOf(exp, p), p.maxGoals + 1, p.maxGoals + 1);
  }

  /** One step of the grid loop: the two Poisson factors times the correction is the cell. */
  lemma CellStep(r: Rates, i: nat, j: nat, unscaled: real, correction: real, prob: real)
    requires unscaled == Poisson(r.expHome, r.home, i) * Poisson(r.expAway, r.away, j)
    requires correction == Correction(i, j, r.home, r.away, r.rho)
    requires prob == unscaled * correction
    ensures prob == Cell(r, i, j)
  {
  }

  /**
   * One pass of the inner loop of `predictProbs`: row i of the grid, cells
   * (i, 0) .. (i, maxGoals), added to the running totals. `expHome` and
   * `expAway` are the values of Math.exp(-lambdaHome) and Math.exp(-lambdaAway).
   */
  method TallyRow(lambdaHome: real, lambdaAway: real, rho: real, expHome: real, expAway: real,
                  maxGoals: nat, i: nat, pHome0: real, pDraw0: real, pAway0: real)
    returns (pHome: real, pDraw: real, pAway: real)
    ensures Totals(pHome, pDraw, pAway)
         == RowTally(Rates(lambdaHome, lambdaAway, rho, expHome, expAway), Totals(pHome0, pDraw0, pAway0), i, maxGoals + 1)
  {
    ghost var r := Rates(lambdaHome, lambdaAway, rho, expHome, expAway);
    pHome, pDraw, pAway := pHome0, pDraw0, pAway0;
    var j := 0;
    while j <= maxGoals
      invariant 0 <= j <= maxGoals + 1
      invariant Totals(pHome, pDraw, pAway) == RowTally(r, Totals(pHome0, pDraw0, pAway0), i, j)
    {
      var prob := Poisson(expHome, lambdaHome, i) * Poisson(expAway, lambdaAway, j);
      ghost var unscaled := prob;
      var correction := Correction(i, j, lambdaHome, lambdaAway, rho);
      prob := prob * correction;
      CellStep(r, i, j, unscaled, correction, prob);
      if i > j {
        pHome := pHome + prob;
      } else if i == j {
        pDraw := pDraw + prob;
      } else {
        pAway := pAway + prob;
      }
      RowTallyStep(r, Totals(pHome0, pDraw0, pAway0), i, j);
      j := j + 1;
    }
  }

  /** The outer loop of `predictProbs`: rows 0 .. maxGoals, each through `TallyRow`. */
  method TallyGrid(lambdaHome: real, lambdaAway: real, rho: real, expHome: real, expAway: real,
                   maxGoals: nat)
    returns (pHome: real, pDraw: real, pAway: real)
    ensures Totals(pHome, pDraw, pAway) == GridTally(Rates(lambdaHome, lambdaAway, rho, expHome, expAway), maxGoals + 1, maxGoals + 1)
  {
    ghost var r := Rates(lambdaHome, lambdaAway, rho, expHome, expAway);
    pHome, pDraw, pAway := 0.0, 0.0, 0.0;
    var i := 0;
    while i <= maxGoals
      invariant 0 <= i <= maxGoals + 1
      invariant Totals(pHome, pDraw, pAway) == GridTally(r, maxGoals + 1, i)
    {
      pHome, pDraw, pAway := TallyRow(lambdaHome, lambdaAway, rho, expHome, expAway, maxGoals, i, pHome, pDraw, pAway);
      GridTallyStep(r, maxGoals + 1, i);
      i := i + 1;
    }
  }

  /** `predictProbs`: the expected goals, the grid loops and the normalisation. */
  method PredictProbs(exp: PosFn, p: Inputs) returns (r: Prediction)
    requires Mass(exp, p).Sum() != 0.0
    ensures r == Predict(exp, p)
  {
    var lambdaHome := LambdaHome(p);
    var lambdaAway := LambdaAway(p);
    var expHome := ExpNeg(exp, lambdaHome);
    var expAway := ExpNeg(exp, lambdaAway);
    var pHome, pDraw, pAway := TallyGrid(lambdaHome, lambdaAway, p.rho, expHome, expAway, p.maxGoals);
    r := Normalise(Totals(pHome, pDraw, pAway), p);
  }

  // ----- predictProbsStatic -----

  /** The arguments the legacy entry point forwards; rho is left to its default. */
  function StaticInputs(lambdaHome: real, lambdaAway: real, maxGoals: nat): Inputs {
    Inputs(lambdaHome / 1.4, 1.0, lambdaAway / 1.4, 1.0, 1.0, 1.4, 0.1, maxGoals)
  }

  /** Dividing by 1.4 and multiplying back by the league average recovers the given expected goals. */
  lemma StaticRoundTrip(lambdaHome: real, lambdaAway: real, maxGoals: nat)
    ensures LambdaHome(StaticInputs(lambdaHome, lambdaAway, maxGoals)) == lambdaHome
    ensures LambdaAway(StaticInputs(lambdaHome, lambdaAway, maxGoals)) == lambdaAway
  {
  }

  /** `predictProbsStatic`: the prediction's expected goals are the ones passed in. */
  method PredictProbsStatic(exp: PosFn, lambdaHome: real, lambdaAway: real, maxGoals: nat) returns (r: Prediction)
    requires Mass(exp, StaticInputs(lambdaHome, lambdaAway, maxGoals)).Sum() != 0.0
    ensures r == Predict(exp, StaticInputs(lambdaHome, lambdaAway, maxGoals))
    ensures r.expectedGoalsHome == lambdaHome && r.expectedGoalsAway == lambdaAway
    ensures r.modelParameters.correlationFactor == 0.1 && r.modelParameters.homeAdvantage == 1.0
  {
    r := PredictProbs(exp, StaticInputs(lambdaHome, lambdaAway, maxGoals));
    StaticRoundTrip(lambdaHome, lambdaAway, maxGoals);
  }
}
