/** `PnlCalculator`: one-pass drawdowns and streaks against their definitions by prefix
    sums and contiguous blocks, in exact arithmetic. */
module Pnl {
  datatype Outcome = Win | Loss | Failed | Unknown
  datatype Entry = Entry(outcome: Outcome, pnl: real)
  datatype EquityPoint = EquityPoint(cumulativePnl: real, peakPnl: real, currentDrawdown: real)

  function Max(a: real, b: real): real { if a >= b then a else b }

  // ----- definitions -----

  /** Failed and unknown bets do not change the P&L. */
  function Change(e: Entry): real {
    if e.outcome == Win || e.outcome == Loss then e.pnl else 0.0
  }

  /** The P&L after all entries. */
  function Cum(es: seq<Entry>): real {
    if es == [] then 0.0 else Cum(es[..|es| - 1]) + Change(es[|es| - 1])
  }

  /** The prefix sum P_i. */
  function P(es: seq<Entry>, i: int): real
    requires 0 <= i <= |es|
  {
    Cum(es[..i])
  }

  /** The fall from P_i to P_j. */
  function Fall(es: seq<Entry>, i: int, j: int): real
    requires 0 <= i <= j <= |es|
  {
    P(es, i) - P(es, j)
  }

  ghost predicate IsPeak(es: seq<Entry>, p: real) {
    && (forall i :: 0 <= i <= |es| ==> P(es, i) <= p)
    && (exists i :: 0 <= i <= |es| && P(es, i) == p)
  }

  /** The largest fall P_i - P_j with i <= j. */
  ghost predicate IsMaxDrawdown(es: seq<Entry>, d: real) {
    && (forall i, j :: 0 <= i <= j <= |es| ==> Fall(es, i, j) <= d)
    && (exists i, j :: 0 <= i <= j <= |es| && Fall(es, i, j) == d)
  }

  ghost predicate IsBlock(es: seq<Entry>, o: Outcome, i: int, j: int) {
    0 <= i <= j <= |es| && forall k :: i <= k < j ==> es[k].outcome == o
  }

  /** The length of the longest contiguous block of one outcome. */
  ghost predicate IsLongestBlock(es: seq<Entry>, o: Outcome, n: int) {
    && (forall i, j :: IsBlock(es, o, i, j) ==> j - i <= n)
    && (exists i, j :: IsBlock(es, o, i, j) && j - i == n)
  }

  function CountOf(es: seq<Entry>, o: Outcome): nat {
    if es == [] then 0 else CountOf(es[..|es| - 1], o) + (if es[|es| - 1].outcome == o then 1 else 0)
  }

  function Gross(es: seq<Entry>, o: Outcome): real {
    if es == [] then 0.0 else Gross(es[..|es| - 1], o) + (if es[|es| - 1].outcome == o then es[|es| - 1].pnl else 0.0)
  }

  lemma {:induction false} GrossIsCum(es: seq<Entry>)
    ensures Gross(es, Win) + Gross(es, Loss) == Cum(es)
    ensures CountOf(es, Win) + CountOf(es, Loss) + CountOf(es, Failed) + CountOf(es, Unknown) == |es|
  {
    if es != [] { GrossIsCum(es[..|es| - 1]); }
  }

  // ----- growing a list by one entry -----

  lemma Prefixes(es: seq<Entry>, e: Entry)
    ensures forall i :: 0 <= i <= |es| ==> P(es + [e], i) == P(es, i)
    ensures P(es + [e], |es| + 1) == Cum(es + [e]) == Cum(es) + Change(e)
  {
    var fs := es + [e];
    assert fs[..|es|] == es && fs[..|fs|] == fs;
    forall i | 0 <= i <= |es| ensures P(fs, i) == P(es, i) { assert fs[..i] == es[..i]; }
  }

  lemma PeakGrows(es: seq<Entry>, e: Entry, p: real)
    requires IsPeak(es, p)
    ensures IsPeak(es + [e], Max(p, Cum(es + [e])))
  {
    var fs := es + [e];
    Prefixes(es, e);
    var i :| 0 <= i <= |es| && P(es, i) == p;
    assert P(fs, i) == p && P(fs, |fs|) == Cum(fs);
  }

  lemma FallInside(es: seq<Entry>, e: Entry, i: int, j: int)
    requires 0 <= i <= j <= |es|
    ensures Fall(es + [e], i, j) == Fall(es, i, j)
  {
    assert (es + [e])[..i] == es[..i] && (es + [e])[..j] == es[..j];
  }

  lemma FallToEnd(es: seq<Entry>, i: int)
    requires 0 <= i <= |es|
    ensures Fall(es, i, |es|) == P(es, i) - Cum(es)
  {
    assert es[..|es|] == es;
  }

  lemma DrawdownGrows(es: seq<Entry>, e: Entry, p: real, d: real)
    requires IsMaxDrawdown(es, d) && IsPeak(es + [e], p)
    ensures IsMaxDrawdown(es + [e], Max(d, p - Cum(es + [e])))
  {
    var fs := es + [e];
    forall i, j | 0 <= i <= j <= |fs| ensures Fall(fs, i, j) <= Max(d, p - Cum(fs)) {
      if j <= |es| { FallInside(es, e, i, j); } else { FallToEnd(fs, i); }
    }
    if d >= p - Cum(fs) {
      var i, j :| 0 <= i <= j <= |es| && Fall(es, i, j) == d;
      FallInside(es, e, i, j);
    } else {
      var i :| 0 <= i <= |fs| && P(fs, i) == p;
      FallToEnd(fs, i);
    }
  }

  /** What the loop of `computeDrawdown` knows after a list. */
  ghost predicate DrawdownAt(es: seq<Entry>, c: real, peak: real, d: real) {
    c == Cum(es) && IsPeak(es, peak) && IsMaxDrawdown(es, d)
  }

  /** One turn of that loop. */
  lemma DrawdownStep(es: seq<Entry>, k: nat, c: real, peak: real, d: real)
    requires k < |es| && DrawdownAt(es[..k], c, peak, d)
    ensures var c' := c + Change(es[k]);
            DrawdownAt(es[..k + 1], c', Max(peak, c'), Max(d, Max(peak, c') - c'))
  {
    assert es[..k + 1] == es[..k] + [es[k]];
    Prefixes(es[..k], es[k]);
    PeakGrows(es[..k], es[k], peak);
    DrawdownGrows(es[..k], es[k], Max(peak, Cum(es[..k + 1])), d);
  }

  /** The block of an outcome that ends a list; it is maximal when it cannot be extended. */
  ghost predicate IsTail(es: seq<Entry>, o: Outcome, n: int) {
    IsBlock(es, o, |es| - n, |es|) && (n < |es| ==> es[|es| - n - 1].outcome != o)
  }

  lemma StreakGrows(es: seq<Entry>, e: Entry, o: Outcome, current: int, longest: int)
    requires IsTail(es, o, current) && IsLongestBlock(es, o, longest)
    ensures var c := if e.outcome == o then current + 1 else 0;
            IsTail(es + [e], o, c) && IsLongestBlock(es + [e], o, if c > longest then c else longest)
  {
    var fs := es + [e];
    var c := if e.outcome == o then current + 1 else 0;
    var l := if c > longest then c else longest;
    assert IsTail(fs, o, c);
    forall i, j | IsBlock(fs, o, i, j) ensures j - i <= l {
      if j <= |es| {
        forall k | i <= k < j ensures es[k].outcome == o { assert fs[k].outcome == o; }
        assert IsBlock(es, o, i, j);
      }
    }
    if l == longest {
      var i, j :| IsBlock(es, o, i, j) && j - i == longest;
      assert IsBlock(fs, o, i, j);
    } else {
      assert IsBlock(fs, o, |fs| - c, |fs|);
    }
  }

  lemma EmptyFacts()
    ensures IsPeak([], 0.0) && IsMaxDrawdown([], 0.0)
    ensures forall o :: IsTail([], o, 0) && IsLongestBlock([], o, 0)
  {
    assert P([], 0) == 0.0;
    assert Fall([], 0, 0) == 0.0;
    forall o ensures IsLongestBlock([], o, 0) { assert IsBlock([], o, 0, 0); }
  }

  // ----- the loops -----

  method ComputeDrawdown(es: seq<Entry>) returns (maxDrawdown: real, currentDrawdown: real)
    ensures IsMaxDrawdown(es, maxDrawdown)
    ensures IsPeak(es, currentDrawdown + Cum(es))
  {
    var cumulativePnl, peakPnl := 0.0, 0.0;
    maxDrawdown := 0.0;
    EmptyFacts();
    var k := 0;
    while k < |es|
      invariant 0 <= k <= |es|
      invariant DrawdownAt(es[..k], cumulativePnl, peakPnl, maxDrawdown)
    {
      DrawdownStep(es, k, cumulativePnl, peakPnl, maxDrawdown);
      if es[k].outcome == Win || es[k].outcome == Loss { cumulativePnl := cumulativePnl + es[k].pnl; }
      peakPnl := Max(peakPnl, cumulativePnl);
      maxDrawdown := Max(maxDrawdown, peakPnl - cumulativePnl);
      k := k + 1;
    }
    assert es[..|es|] == es;
    currentDrawdown := peakPnl - cumulativePnl;
  }

  /** What a point of the equity curve says about the entries up to it. */
  ghost predicate IsPointAt(es: seq<Entry>, k: int, point: EquityPoint)
    requires 0 <= k < |es|
  {
    && point.cumulativePnl == P(es, k + 1)
    && IsPeak(es[..k + 1], point.peakPnl)
    && point.currentDrawdown == point.peakPnl - point.cumulativePnl
  }

  ghost predicate IsCurveOf(curve: seq<EquityPoint>, es: seq<Entry>) {
    |curve| == |es| && forall k :: 0 <= k < |es| ==> IsPointAt(es, k, curve[k])
  }

  lemma PeakStep(es: seq<Entry>, k: nat, peak: real)
    requires k < |es| && IsPeak(es[..k], peak)
    ensures var c := Cum(es[..k]) + Change(es[k]);
            IsPointAt(es, k, EquityPoint(c, Max(peak, c), Max(peak, c) - c)) && Cum(es[..k + 1]) == c
  {
    assert es[..k + 1] == es[..k] + [es[k]];
    Prefixes(es[..k], es[k]);
    PeakGrows(es[..k], es[k], peak);
  }

  method BuildEquityCurve(es: seq<Entry>) returns (curve: seq<EquityPoint>)
    ensures IsCurveOf(curve, es)
  {
    curve := [];
    var cumulativePnl, peakPnl := 0.0, 0.0;
    EmptyFacts();
    var k := 0;
    while k < |es|
      invariant 0 <= k <= |es| && |curve| == k
      invariant cumulativePnl == Cum(es[..k]) && IsPeak(es[..k], peakPnl)
      invariant forall i :: 0 <= i < k ==> IsPointAt(es, i, curve[i])
    {
      PeakStep(es, k, peakPnl);
      if es[k].outcome == Win || es[k].outcome == Loss { cumulativePnl := cumulativePnl + es[k].pnl; }
      peakPnl := Max(peakPnl, cumulativePnl);
      var currentDrawdown := peakPnl - cumulativePnl;
      curve := curve + [EquityPoint(cumulativePnl, peakPnl, currentDrawdown)];
      k := k + 1;
    }
  }

  ghost predicate IsMaxOfCurve(curve: seq<EquityPoint>, d: real) {
    if curve == [] then d == 0.0
    else (forall k :: 0 <= k < |curve| ==> curve[k].currentDrawdown <= d)
         && (exists k :: 0 <= k < |curve| && curve[k].currentDrawdown == d)
  }

  method ComputeDrawdownFromCurve(curve: seq<EquityPoint>) returns (maxDrawdown: real, currentDrawdown: real)
    ensures IsMaxOfCurve(curve, maxDrawdown)
    ensures currentDrawdown == if curve == [] then 0.0 else curve[|curve| - 1].currentDrawdown
  {
    if |curve| == 0 { return 0.0, 0.0; }
    maxDrawdown := curve[0].currentDrawdown;
    var k := 1;
    while k < |curve|
      invariant 1 <= k <= |curve|
      invariant forall i :: 0 <= i < k ==> curve[i].currentDrawdown <= maxDrawdown
      invariant exists i :: 0 <= i < k && curve[i].currentDrawdown == maxDrawdown
    {
      maxDrawdown := Max(maxDrawdown, curve[k].currentDrawdown);
      k := k + 1;
    }
    currentDrawdown := curve[|curve| - 1].currentDrawdown;
  }

  lemma PeakIsUnique(es: seq<Entry>, p: real, q: real)
    requires IsPeak(es, p) && IsPeak(es, q)
    ensures p == q
  {
    var i :| 0 <= i <= |es| && P(es, i) == p;
    var j :| 0 <= j <= |es| && P(es, j) == q;
  }

  lemma MaxDrawdownIsUnique(es: seq<Entry>, c: real, d: real)
    requires IsMaxDrawdown(es, c) && IsMaxDrawdown(es, d)
    ensures c == d
  {
    var i, j :| 0 <= i <= j <= |es| && Fall(es, i, j) == c;
    var k, l :| 0 <= k <= l <= |es| && Fall(es, k, l) == d;
  }

  lemma FallEndingAt(es: seq<Entry>, k: nat, point: EquityPoint, h: nat)
    requires k < |es| && IsPointAt(es, k, point) && h <= k + 1
    ensures Fall(es, h, k + 1) <= point.currentDrawdown
  {
    assert es[..k + 1][..h] == es[..h];
    assert P(es[..k + 1], h) <= point.peakPnl;
  }

  /** The drawdown at one point of the curve is the largest fall that ends there. */
  lemma LargestFallEndingAt(es: seq<Entry>, k: nat, point: EquityPoint) returns (i: nat)
    requires k < |es| && IsPointAt(es, k, point)
    ensures i <= k + 1 && Fall(es, i, k + 1) == point.currentDrawdown >= 0.0
  {
    var fs := es[..k + 1];
    i :| 0 <= i <= |fs| && P(fs, i) == point.peakPnl;
    assert fs[..i] == es[..i];
    FallEndingAt(es, k, point, k + 1);
  }

  lemma CurveBoundsFall(curve: seq<EquityPoint>, es: seq<Entry>, d: real, i: nat, j: nat)
    requires IsCurveOf(curve, es) && IsMaxOfCurve(curve, d) && i <= j <= |es|
    ensures Fall(es, i, j) <= d
  {
    if j > 0 {
      FallEndingAt(es, j - 1, curve[j - 1], i);
    } else if es != [] {
      var h := LargestFallEndingAt(es, 0, curve[0]);
    }
  }

  /** The two ways to the drawdown agree: the maximum over the built curve is the largest
      fall P_i - P_j with i <= j, and the curve ends at the net P&L. */
  lemma CurveAgrees(curve: seq<EquityPoint>, es: seq<Entry>, d: real)
    requires IsCurveOf(curve, es) && IsMaxOfCurve(curve, d)
    ensures IsMaxDrawdown(es, d)
    ensures curve != [] ==> curve[|curve| - 1].cumulativePnl == Gross(es, Win) + Gross(es, Loss)
    ensures curve != [] ==> IsPeak(es, curve[|curve| - 1].currentDrawdown + Cum(es))
  {
    forall i, j | 0 <= i <= j <= |es| ensures Fall(es, i, j) <= d { CurveBoundsFall(curve, es, d, i, j); }
    if curve == [] {
      assert Fall(es, 0, 0) == d;
    } else {
      var k :| 0 <= k < |curve| && curve[k].currentDrawdown == d;
      var i := LargestFallEndingAt(es, k, curve[k]);
      GrossIsCum(es);
      assert IsPointAt(es, |es| - 1, curve[|es| - 1]) && es[..|es|] == es;
    }
  }

  datatype Summary = Summary(
    wins: nat, losses: nat, failed: nat, unknown: nat, grossProfit: real, grossLoss: real, netPnl: real,
    hitRate: real, maxDrawdown: real, currentDrawdown: real, expectedValue: real,
    winStreakMax: nat, lossStreakMax: nat, currentStreak: nat)

  function Rate(wins: nat, losses: nat): real {
    if wins + losses > 0 then wins as real / (wins + losses) as real else 0.0
  }

  function BreakEvenHitRate(target: real): real
    requires target != 0.0
  {
    1.0 / target
  }

  function ExpectedValue(stake: real, target: real, hitRate: real): real {
    stake * (hitRate * target - 1.0)
  }

  /** Everything a summary claims, by definition rather than by accumulation. */
  ghost predicate IsSummaryOf(s: Summary, es: seq<Entry>, stake: real, target: real) {
    && s.wins == CountOf(es, Win) && s.losses == CountOf(es, Loss)
    && s.failed == CountOf(es, Failed) && s.unknown == CountOf(es, Unknown)
    && s.grossProfit == Gross(es, Win) && s.grossLoss == Gross(es, Loss) && s.netPnl == Cum(es)
    && s.hitRate == Rate(s.wins, s.losses)
    && IsMaxDrawdown(es, s.maxDrawdown) && IsPeak(es, s.currentDrawdown + Cum(es))
    && IsLongestBlock(es, Win, s.winStreakMax) && IsLongestBlock(es, Loss, s.lossStreakMax)
    && IsTail(es, if es != [] && es[|es| - 1].outcome == Win then Win else Loss, s.currentStreak)
    && (es != [] ==> s.expectedValue == ExpectedValue(stake, target, s.hitRate))
  }

  /** The accumulators of the summary loop. */
  datatype Tally = Tally(
    wins: nat, losses: nat, failed: nat, unknown: nat, grossProfit: real, grossLoss: real,
    winStreakMax: nat, lossStreakMax: nat, currentWinStreak: nat, currentLossStreak: nat)

  ghost predicate CountsOf(t: Tally, es: seq<Entry>) {
    && t.wins == CountOf(es, Win) && t.losses == CountOf(es, Loss)
    && t.failed == CountOf(es, Failed) && t.unknown == CountOf(es, Unknown)
    && t.grossProfit == Gross(es, Win) && t.grossLoss == Gross(es, Loss)
  }

  ghost predicate StreaksOf(t: Tally, es: seq<Entry>) {
    && IsTail(es, Win, t.currentWinStreak) && IsLongestBlock(es, Win, t.winStreakMax)
    && IsTail(es, Loss, t.currentLossStreak) && IsLongestBlock(es, Loss, t.lossStreakMax)
  }

  function MaxNat(a: nat, b: nat): nat { if a >= b then a else b }

  /** One turn of the summary loop. */
  function AddEntry(t: Tally, e: Entry): Tally {
    match e.outcome
    case Win =>
      t.(wins := t.wins + 1, grossProfit := t.grossProfit + e.pnl,
         winStreakMax := MaxNat(t.winStreakMax, t.currentWinStreak + 1),
         currentWinStreak := t.currentWinStreak + 1, currentLossStreak := 0)
    case Loss =>
      t.(losses := t.losses + 1, grossLoss := t.grossLoss + e.pnl,
         lossStreakMax := MaxNat(t.lossStreakMax, t.currentLossStreak + 1),
         currentLossStreak := t.currentLossStreak + 1, currentWinStreak := 0)
    case Failed => t.(failed := t.failed + 1, currentWinStreak := 0, currentLossStreak := 0)
    case Unknown => t.(unknown := t.unknown + 1, currentWinStreak := 0, currentLossStreak := 0)
  }

  const NOTHING := Tally(0, 0, 0, 0, 0.0, 0.0, 0, 0, 0, 0)

  function TallyOf(es: seq<Entry>): Tally {
    if es == [] then NOTHING else AddEntry(TallyOf(es[..|es| - 1]), es[|es| - 1])
  }

  /** The accumulators are what the definitions say. */
  lemma {:induction false} TallyCounts(es: seq<Entry>)
    ensures CountsOf(TallyOf(es), es)
  {
    if es != [] { TallyCounts(es[..|es| - 1]); }
  }

  lemma {:induction false} TallyStreaks(es: seq<Entry>)
    ensures StreaksOf(TallyOf(es), es)
  {
    if es == [] {
      EmptyFacts();
    } else {
      var p, e := es[..|es| - 1], es[|es| - 1];
      TallyStreaks(p);
      StreaksGrow(TallyOf(p), p, e);
      assert es == p + [e];
    }
  }

  lemma StreaksGrow(t: Tally, es: seq<Entry>, e: Entry)
    requires StreaksOf(t, es)
    ensures StreaksOf(AddEntry(t, e), es + [e])
  {
    StreakGrows(es, e, Win, t.currentWinStreak, t.winStreakMax);
    StreakGrows(es, e, Loss, t.currentLossStreak, t.lossStreakMax);
  }

  method TallyEntries(es: seq<Entry>) returns (t: Tally)
    ensures t == TallyOf(es)
  {
    var wins, losses, failed, unknown := 0, 0, 0, 0;
    var grossProfit, grossLoss := 0.0, 0.0;
    var winStreakMax, lossStreakMax, currentWinStreak, currentLossStreak := 0, 0, 0, 0;
    t := NOTHING;
    var k := 0;
    while k < |es|
      invariant 0 <= k <= |es|
      invariant t == Tally(wins, losses, failed, unknown, grossProfit, grossLoss,
                           winStreakMax, lossStreakMax, currentWinStreak, currentLossStreak)
      invariant t == TallyOf(es[..k])
    {
      assert es[..k + 1][..k] == es[..k];
      match es[k].outcome {
        case Win =>
          wins := wins + 1;
          grossProfit := grossProfit + es[k].pnl;
          currentWinStreak := currentWinStreak + 1;
          currentLossStreak := 0;
          winStreakMax := MaxNat(winStreakMax, currentWinStreak);
        case Loss =>
          losses := losses + 1;
          grossLoss := grossLoss + es[k].pnl;
          currentLossStreak := currentLossStreak + 1;
          currentWinStreak := 0;
          lossStreakMax := MaxNat(lossStreakMax, currentLossStreak);
        case Failed =>
          failed := failed + 1;
          currentWinStreak, currentLossStreak := 0, 0;
        case Unknown =>
          unknown := unknown + 1;
          currentWinStreak, currentLossStreak := 0, 0;
      }
      t := Tally(wins, losses, failed, unknown, grossProfit, grossLoss,
                 winStreakMax, lossStreakMax, currentWinStreak, currentLossStreak);
      k := k + 1;
    }
    assert es[..|es|] == es;
  }

  method ComputeSummary(stake: real, target: real, es: seq<Entry>) returns (s: Summary)
    ensures IsSummaryOf(s, es, stake, target)
  {
    if |es| == 0 {
      EmptyFacts();
      return Summary(0, 0, 0, 0, 0.0, 0.0, 0.0, 0.0, 0.0, 0.0, 0.0, 0, 0, 0);
    }
    var t := TallyEntries(es);
    TallyCounts(es);
    TallyStreaks(es);
    GrossIsCum(es);
    var hitRate := Rate(t.wins, t.losses);
    var maxDrawdown, currentDrawdown := ComputeDrawdown(es);
    var currentStreak := if t.currentWinStreak > 0 then t.currentWinStreak else t.currentLossStreak;
    s := Summary(t.wins, t.losses, t.failed, t.unknown, t.grossProfit, t.grossLoss, t.grossProfit + t.grossLoss,
                 hitRate, maxDrawdown, currentDrawdown, ExpectedValue(stake, target, hitRate),
                 t.winStreakMax, t.lossStreakMax, currentStreak);
  }

  // ----- dry runs -----

  function WinProfit(stake: real, target: real): real { stake * (target - 1.0) }

  /** `simulateDryRun`'s entry for one crash point. */
  function DryEntry(stake: real, target: real, crashPoint: real): Entry {
    if crashPoint >= target then Entry(Win, WinProfit(stake, target)) else Entry(Loss, -stake)
  }

  function DryRun(stake: real, target: real, points: seq<real>): (es: seq<Entry>)
    ensures |es| == |points|
    ensures forall i :: 0 <= i < |points| ==> es[i] == DryEntry(stake, target, points[i])
  {
    seq(|points|, i requires 0 <= i < |points| => DryEntry(stake, target, points[i]))
  }

  method SimulateDryRun(stake: real, target: real, points: seq<real>) returns (s: Summary)
    ensures IsSummaryOf(s, DryRun(stake, target, points), stake, target)
  {
    s := ComputeSummary(stake, target, DryRun(stake, target, points));
  }

  /** Every win gains the same and every loss loses the stake. */
  ghost predicate IsDry(es: seq<Entry>, gain: real, stake: real) {
    forall i :: 0 <= i < |es| ==> es[i] == Entry(Win, gain) || es[i] == Entry(Loss, -stake)
  }

  /** n times a, by addition. */
  function Times(a: real, n: nat): real {
    if n == 0 then 0.0 else Times(a, n - 1) + a
  }

  lemma {:induction false} TimesIsProduct(a: real, n: nat)
    ensures Times(a, n) == a * n as real
  {
    if n > 0 { TimesIsProduct(a, n - 1); }
  }

  lemma {:induction false} TimesGrows(a: real, m: nat, n: nat)
    requires a >= 0.0 && m <= n
    ensures Times(a, m) <= Times(a, n)
  {
    if m < n { TimesGrows(a, m, n - 1); }
  }

  /** A list of dry entries in closed form. */
  lemma {:induction false} DryTotals(es: seq<Entry>, gain: real, stake: real)
    requires IsDry(es, gain, stake)
    ensures CountOf(es, Win) + CountOf(es, Loss) == |es|
    ensures Cum(es) == Times(gain, CountOf(es, Win)) - Times(stake, CountOf(es, Loss))
  {
    if es != [] { DryTotals(es[..|es| - 1], gain, stake); }
  }

  /** From any prefix to the end the P&L falls by at most the stake per loss. */
  lemma {:induction false} FallPerLoss(es: seq<Entry>, gain: real, stake: real, i: nat)
    requires IsDry(es, gain, stake) && stake > 0.0 && gain >= 0.0 && i <= |es|
    ensures P(es, i) - Cum(es) <= Times(stake, CountOf(es, Loss))
  {
    if i == |es| {
      assert es[..i] == es;
      TimesGrows(stake, 0, CountOf(es, Loss));
    } else {
      var p := es[..|es| - 1];
      assert p[..i] == es[..i];
      FallPerLoss(p, gain, stake, i);
    }
  }

  lemma {:induction false} CountMonotone(es: seq<Entry>, o: Outcome, j: nat)
    requires j <= |es|
    ensures CountOf(es[..j], o) <= CountOf(es, o)
  {
    if j < |es| {
      assert es[..|es| - 1][..j] == es[..j];
      CountMonotone(es[..|es| - 1], o, j);
    } else {
      assert es[..j] == es;
    }
  }

  /** Along a block of losses the P&L falls by the stake each time. */
  lemma {:induction false} FallAlongBlock(es: seq<Entry>, gain: real, stake: real, i: nat, j: nat)
    requires IsDry(es, gain, stake) && IsBlock(es, Loss, i, j)
    ensures Fall(es, i, j) == Times(stake, j - i)
  {
    if i < j {
      assert es[..j][..j - 1] == es[..j - 1];
      assert es[j - 1] == Entry(Loss, -stake);
      FallAlongBlock(es, gain, stake, i, j - 1);
    }
  }

  lemma StreakBoundsDrawdown(es: seq<Entry>, gain: real, stake: real, streak: nat, d: real)
    requires IsDry(es, gain, stake) && IsLongestBlock(es, Loss, streak) && IsMaxDrawdown(es, d)
    ensures Times(stake, streak) <= d
  {
    var i, j :| IsBlock(es, Loss, i, j) && j - i == streak;
    FallAlongBlock(es, gain, stake, i, j);
    assert Fall(es, i, j) <= d;
  }

  lemma LossesBoundFall(es: seq<Entry>, gain: real, stake: real, k: nat, l: nat)
    requires IsDry(es, gain, stake) && stake > 0.0 && gain >= 0.0 && k <= l <= |es|
    ensures Fall(es, k, l) <= Times(stake, CountOf(es, Loss))
  {
    assert es[..l][..k] == es[..k];
    FallPerLoss(es[..l], gain, stake, k);
    CountMonotone(es, Loss, l);
    TimesGrows(stake, CountOf(es[..l], Loss), CountOf(es, Loss));
  }

  lemma LossesBoundDrawdown(es: seq<Entry>, gain: real, stake: real, d: real)
    requires IsDry(es, gain, stake) && stake > 0.0 && gain >= 0.0 && IsMaxDrawdown(es, d)
    ensures d <= Times(stake, CountOf(es, Loss))
  {
    var k, l :| 0 <= k <= l <= |es| && Fall(es, k, l) == d;
    LossesBoundFall(es, gain, stake, k, l);
  }

  lemma ProfitNotNegative(stake: real, target: real)
    requires stake > 0.0 && target >= 1.0
    ensures WinProfit(stake, target) >= 0.0
  {
  }

  lemma DryDrawdown(stake: real, target: real, points: seq<real>, streak: nat, losses: nat, d: real)
    requires stake > 0.0 && target >= 1.0
    requires IsLongestBlock(DryRun(stake, target, points), Loss, streak)
    requires losses == CountOf(DryRun(stake, target, points), Loss)
    requires IsMaxDrawdown(DryRun(stake, target, points), d)
    ensures stake * streak as real <= d <= stake * losses as real
  {
    var es, gain := DryRun(stake, target, points), WinProfit(stake, target);
    ProfitNotNegative(stake, target);
    StreakBoundsDrawdown(es, gain, stake, streak, d);
    LossesBoundDrawdown(es, gain, stake, d);
    TimesIsProduct(stake, streak);
    TimesIsProduct(stake, losses);
  }

  /** The longest losing streak bounds the drawdown of a dry run from below, the number of
      losses from above. */
  lemma DrawdownBounds(stake: real, target: real, points: seq<real>, s: Summary)
    requires stake > 0.0 && target >= 1.0
    requires IsSummaryOf(s, DryRun(stake, target, points), stake, target)
    ensures stake * s.lossStreakMax as real <= s.maxDrawdown <= stake * s.losses as real
  {
    DryDrawdown(stake, target, points, s.lossStreakMax, s.losses, s.maxDrawdown);
  }

  lemma RateTimesCount(wins: nat, losses: nat)
    requires wins + losses > 0
    ensures Rate(wins, losses) * (wins + losses) as real == wins as real
  {
  }

  lemma ValueOfRate(stake: real, target: real, w: real, n: real, h: real)
    requires h * n == w
    ensures n * (stake * (h * target - 1.0)) == stake * (w * target - n)
  {
    calc {
      n * (stake * (h * target - 1.0));
      stake * (n * (h * target) - n);
      { assert n * (h * target) == (h * n) * target; }
      stake * (w * target - n);
    }
  }

  lemma ProfitInClosedForm(stake: real, target: real, w: real, l: real)
    ensures stake * (target - 1.0) * w - stake * l == stake * (w * target - (w + l))
  {
  }

  lemma SignOfProduct(a: real, b: real)
    requires a > 0.0
    ensures a * b >= 0.0 <==> b >= 0.0
  {
  }

  lemma BreakEven(target: real, h: real)
    requires target >= 1.0
    ensures h * target - 1.0 >= 0.0 <==> h >= BreakEvenHitRate(target)
  {
    var b := BreakEvenHitRate(target);
    assert b * target == 1.0;
    SignOfProduct(target, h - b);
    assert target * (h - b) == h * target - 1.0;
  }

  /** The money of n dry entries, in numbers alone. */
  ghost predicate IsDryMoney(stake: real, target: real, n: real, w: real, l: real, h: real, value: real, net: real) {
    && w + l == n && h * n == w
    && value == ExpectedValue(stake, target, h) && net == WinProfit(stake, target) * w - stake * l
  }

  /** The expected value of a hit rate against the P&L of that many wins and losses. */
  lemma ExpectationArithmetic(stake: real, target: real, n: real, w: real, l: real, h: real, value: real, net: real)
    requires stake > 0.0 && target >= 1.0 && n > 0.0 && IsDryMoney(stake, target, n, w, l, h, value, net)
    ensures n * value == net
    ensures net >= 0.0 <==> h >= BreakEvenHitRate(target)
  {
    ValueOfRate(stake, target, w, n, h);
    ProfitInClosedForm(stake, target, w, l);
    SignOfProduct(n, value);
    SignOfProduct(stake, h * target - 1.0);
    BreakEven(target, h);
  }

  lemma DryNet(es: seq<Entry>, gain: real, stake: real)
    requires IsDry(es, gain, stake)
    ensures Cum(es) == gain * CountOf(es, Win) as real - stake * CountOf(es, Loss) as real
  {
    DryTotals(es, gain, stake);
    TimesIsProduct(gain, CountOf(es, Win));
    TimesIsProduct(stake, CountOf(es, Loss));
  }

  lemma DryRate(es: seq<Entry>, gain: real, stake: real)
    requires IsDry(es, gain, stake) && es != []
    ensures CountOf(es, Win) as real + CountOf(es, Loss) as real == |es| as real
    ensures Rate(CountOf(es, Win), CountOf(es, Loss)) * |es| as real == CountOf(es, Win) as real
  {
    DryTotals(es, gain, stake);
    RateTimesCount(CountOf(es, Win), CountOf(es, Loss));
  }

  lemma DryMoney(stake: real, target: real, es: seq<Entry>, h: real, value: real)
    requires IsDry(es, WinProfit(stake, target), stake) && es != []
    requires h == Rate(CountOf(es, Win), CountOf(es, Loss)) && value == ExpectedValue(stake, target, h)
    ensures IsDryMoney(stake, target, |es| as real, CountOf(es, Win) as real, CountOf(es, Loss) as real, h, value,
                       Cum(es))
  {
    DryNet(es, WinProfit(stake, target), stake);
    DryRate(es, WinProfit(stake, target), stake);
  }

  lemma DryExpectation(stake: real, target: real, es: seq<Entry>, h: real, value: real)
    requires stake > 0.0 && target >= 1.0 && IsDry(es, WinProfit(stake, target), stake) && es != []
    requires h == Rate(CountOf(es, Win), CountOf(es, Loss)) && value == ExpectedValue(stake, target, h)
    ensures |es| as real * value == Cum(es)
    ensures Cum(es) >= 0.0 <==> h >= BreakEvenHitRate(target)
  {
    DryMoney(stake, target, es, h, value);
    ExpectationArithmetic(stake, target, |es| as real, CountOf(es, Win) as real, CountOf(es, Loss) as real, h, value,
                          Cum(es));
  }

  lemma DryRunExpectation(
    stake: real, target: real, points: seq<real>, wins: nat, losses: nat, h: real, value: real, net: real)
    requires stake > 0.0 && target >= 1.0 && points != []
    requires wins == CountOf(DryRun(stake, target, points), Win)
    requires losses == CountOf(DryRun(stake, target, points), Loss)
    requires h == Rate(wins, losses) && value == ExpectedValue(stake, target, h)
    requires net == Cum(DryRun(stake, target, points))
    ensures |points| as real * value == net
    ensures net >= 0.0 <==> h >= BreakEvenHitRate(target)
  {
    DryExpectation(stake, target, DryRun(stake, target, points), h, value);
  }

  /** For every non-empty list of crash points the expected value per entry times the
      number of entries is the net P&L, and the net P&L is not negative exactly when the
      hit rate reaches the break-even rate. */
  lemma ExpectationIsNet(stake: real, target: real, points: seq<real>, s: Summary)
    requires stake > 0.0 && target >= 1.0 && points != []
    requires IsSummaryOf(s, DryRun(stake, target, points), stake, target)
    ensures |points| as real * s.expectedValue == s.netPnl
    ensures s.netPnl >= 0.0 <==> s.hitRate >= BreakEvenHitRate(target)
  {
    DryRunExpectation(stake, target, points, s.wins, s.losses, s.hitRate, s.expectedValue, s.netPnl);
  }

  /** How many crash points reach the target. */
  function Reaching(points: seq<real>, target: real): nat {
    if points == [] then 0
    else Reaching(points[..|points| - 1], target) + (if points[|points| - 1] >= target then 1 else 0)
  }

  lemma {:induction false} DryCounts(stake: real, target: real, points: seq<real>)
    ensures CountOf(DryRun(stake, target, points), Win) == Reaching(points, target)
    ensures CountOf(DryRun(stake, target, points), Loss) == |points| - Reaching(points, target)
    ensures CountOf(DryRun(stake, target, points), Failed) == CountOf(DryRun(stake, target, points), Unknown) == 0
  {
    if points != [] {
      var p := points[..|points| - 1];
      DryCounts(stake, target, p);
      assert DryRun(stake, target, points)[..|points| - 1] == DryRun(stake, target, p);
    }
  }

  lemma DryRunIsDry(stake: real, target: real, points: seq<real>)
    ensures IsDry(DryRun(stake, target, points), WinProfit(stake, target), stake)
  {
  }

  lemma DryNetOf(es: seq<Entry>, gain: real, stake: real, wins: nat, losses: nat, net: real)
    requires IsDry(es, gain, stake) && net == Cum(es)
    requires wins == CountOf(es, Win) && losses == CountOf(es, Loss)
    ensures net == gain * wins as real - stake * losses as real
  {
    DryNet(es, gain, stake);
  }

  lemma DryRunFacts(
    stake: real, target: real, points: seq<real>, wins: nat, losses: nat, failed: nat, unknown: nat, net: real)
    requires wins == CountOf(DryRun(stake, target, points), Win)
    requires losses == CountOf(DryRun(stake, target, points), Loss)
    requires failed == CountOf(DryRun(stake, target, points), Failed)
    requires unknown == CountOf(DryRun(stake, target, points), Unknown)
    requires net == Cum(DryRun(stake, target, points))
    ensures wins == Reaching(points, target) && losses == |points| - wins && failed == unknown == 0
    ensures net == WinProfit(stake, target) * wins as real - stake * losses as real
  {
    DryCounts(stake, target, points);
    DryRunIsDry(stake, target, points);
    DryNetOf(DryRun(stake, target, points), WinProfit(stake, target), stake, wins, losses, net);
  }

  /** In a dry run the entries that reach the target win, all others lose, and the net P&L is
      the profit of a win for each win less the stake for each loss. */
  lemma DryRunWins(stake: real, target: real, points: seq<real>, s: Summary)
    requires IsSummaryOf(s, DryRun(stake, target, points), stake, target)
    ensures s.wins == Reaching(points, target) && s.losses == |points| - Reaching(points, target)
    ensures s.failed == s.unknown == 0
    ensures s.netPnl == WinProfit(stake, target) * s.wins as real - stake * s.losses as real
  {
    DryRunFacts(stake, target, points, s.wins, s.losses, s.failed, s.unknown, s.netPnl);
  }

  lemma RateIs(wins: nat, losses: nat, rate: real)
    requires rate == Rate(wins, losses)
    ensures rate * (wins + losses) as real == wins as real && (wins + losses == 0 ==> rate == 0.0)
  {
    if wins + losses > 0 { RateTimesCount(wins, losses); }
  }

  /** The hit rate, of any list: wins over decided bets, and 0 when there are none. */
  lemma HitRateIs(es: seq<Entry>, stake: real, target: real, s: Summary)
    requires IsSummaryOf(s, es, stake, target)
    ensures s.hitRate * (s.wins + s.losses) as real == s.wins as real
    ensures s.wins + s.losses == 0 ==> s.hitRate == 0.0
  {
    RateIs(s.wins, s.losses, s.hitRate);
  }
}
