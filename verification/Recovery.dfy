/** The recovery pipeline: the capped sweep over UNKNOWN bets, the balance reconciliation,
    and the manager that decides whether betting may resume.

    Every call into a collaborator may fail; what the collaborators answer is a parameter.
    Bets that become UNKNOWN while the pipeline runs arrive between its phases. A bet's id
    is its position in the repository. */
module Recovery {
  import opened Options

  datatype BetState = UNKNOWN | CASHED_OUT | LOST | FAILED | OTHER
  datatype Bet = Bet(round: Option<string>, stake: real, state: BetState, pnl: Option<real>)

  /** Two decimals, as `Math.round(x * 100) / 100`. */
  function Round2(x: real): real { (x * 100.0 + 0.5).Floor as real / 100.0 }

  // ----- the sweep -----

  datatype Evidence = CashedOutAt(multiplier: Option<real>) | WasLost | HasFailed | NotEstablished

  /** What looking a bet up and asking the provider leads to. */
  datatype Reply = Says(evidence: Evidence) | UpdateFails(evidence: Evidence) | Throws

  /** `provider` is None when no evidence provider is configured. */
  datatype Sources = Sources(rounds: set<string>, provider: Option<seq<Bet> -> nat -> Reply>)

  function Settle(b: Bet, e: Evidence): Bet
    requires !e.NotEstablished?
  {
    match e
    case CashedOutAt(m) =>
      b.(state := CASHED_OUT, pnl := Some(if m.Some? then Round2(b.stake * m.value - b.stake) else 0.0))
    case WasLost => b.(state := LOST, pnl := Some(-b.stake))
    case HasFailed => b.(state := FAILED, pnl := Some(0.0))
  }

  /** `recoverBet`: the record after it; it is resolved when it changed state. */
  function Recover(bets: seq<Bet>, i: nat, src: Sources): Bet
    requires i < |bets|
  {
    var b := bets[i];
    if b.round.None? || b.round.value !in src.rounds || src.provider.None? then b
    else
      match src.provider.value(bets)(i)
      case Says(e) => if e.NotEstablished? then b else Settle(b, e)
      case UpdateFails(_) => b
      case Throws => b
  }

  /** The positions of UNKNOWN bets from `from` on, at most `limit` of them. */
  function FindUnknown(bets: seq<Bet>, from: nat, limit: nat): (r: seq<nat>)
    requires from <= |bets|
    ensures |r| <= limit
    ensures forall k :: 0 <= k < |r| ==> from <= r[k] < |bets| && bets[r[k]].state == UNKNOWN
    ensures forall j, k :: 0 <= j < k < |r| ==> r[j] < r[k]
    decreases |bets| - from
  {
    if from == |bets| || limit == 0 then []
    else if bets[from].state == UNKNOWN then [from] + FindUnknown(bets, from + 1, limit - 1)
    else FindUnknown(bets, from + 1, limit)
  }

  function CountUnknown(bets: seq<Bet>): nat {
    if bets == [] then 0
    else CountUnknown(bets[..|bets| - 1]) + (if bets[|bets| - 1].state == UNKNOWN then 1 else 0)
  }

  ghost function UnknownPositions(bets: seq<Bet>): set<nat> {
    set i: nat | i < |bets| && bets[i].state == UNKNOWN
  }

  lemma {:induction false} CountIsPositions(bets: seq<Bet>)
    ensures CountUnknown(bets) == |UnknownPositions(bets)|
  {
    if bets != [] {
      var p, n := bets[..|bets| - 1], |bets| - 1;
      CountIsPositions(p);
      assert UnknownPositions(bets) == UnknownPositions(p) + (if bets[n].state == UNKNOWN then {n} else {});
    }
  }

  /** The selected bets recovered one after the other. */
  function Swept(bets: seq<Bet>, picked: seq<nat>, src: Sources): (r: seq<Bet>)
    requires forall k :: 0 <= k < |picked| ==> picked[k] < |bets|
    ensures |r| == |bets|
  {
    if picked == [] then bets
    else
      var p, i := Swept(bets, picked[..|picked| - 1], src), picked[|picked| - 1];
      p[i := Recover(p, i, src)]
  }

  function Sweep(bets: seq<Bet>, cap: nat, src: Sources): (r: seq<Bet>)
    ensures |r| == |bets|
  {
    Swept(bets, FindUnknown(bets, 0, cap), src)
  }

  /** How many of the selected bets stay UNKNOWN. */
  function StillUnknown(bets: seq<Bet>, picked: seq<nat>): (n: nat)
    requires forall k :: 0 <= k < |picked| ==> picked[k] < |bets|
    ensures n <= |picked|
  {
    if picked == [] then 0
    else StillUnknown(bets, picked[..|picked| - 1]) + (if bets[picked[|picked| - 1]].state == UNKNOWN then 1 else 0)
  }

  datatype SweepResult = SweepResult(totalUnknown: nat, resolved: nat, stillUnknown: nat)

  /** The failures a sweep may meet. */
  datatype SweepEnv = SweepEnv(src: Sources, readOk: bool, eventOk: bool)

  /** The records after a sweep and its result, None when it throws: before anything when
      the bets cannot be read, and after the updates when the event about the bets left
      over fails. A sweep that finds another one running does nothing. */
  function SweepOutcome(bets: seq<Bet>, cap: nat, busy: bool, env: SweepEnv): (seq<Bet>, Option<SweepResult>) {
    if busy then (bets, Some(SweepResult(0, 0, 0)))
    else if !env.readOk then (bets, None)
    else
      var picked, after := FindUnknown(bets, 0, cap), Sweep(bets, cap, env.src);
      var left := StillUnknown(after, picked);
      (after, if left > 0 && !env.eventOk then None else Some(SweepResult(|picked|, |picked| - left, left)))
  }

  class BetRepository {
    var bets: seq<Bet>

    constructor (bets: seq<Bet>)
      ensures this.bets == bets
    {
      this.bets := bets;
    }
  }

  lemma {:induction false} CountUpdate(bets: seq<Bet>, i: nat, b: Bet)
    requires i < |bets|
    ensures CountUnknown(bets[i := b])
            == CountUnknown(bets) - (if bets[i].state == UNKNOWN then 1 else 0) + (if b.state == UNKNOWN then 1 else 0)
  {
    var n := |bets| - 1;
    if i == n {
      assert bets[i := b][..n] == bets[..n];
    } else {
      assert bets[i := b][..n] == bets[..n][i := b];
      CountUpdate(bets[..n], i, b);
    }
  }

  /** A sweep touches only the selected bets. */
  lemma {:induction false} SweptElsewhere(bets: seq<Bet>, picked: seq<nat>, src: Sources, i: nat)
    requires forall k :: 0 <= k < |picked| ==> picked[k] < |bets|
    requires i < |bets| && i !in picked
    ensures Swept(bets, picked, src)[i] == bets[i]
  {
    if picked != [] { SweptElsewhere(bets, picked[..|picked| - 1], src, i); }
  }

  ghost predicate Increasing(picked: seq<nat>, n: nat) {
    && (forall k :: 0 <= k < |picked| ==> picked[k] < n)
    && forall j, k :: 0 <= j < k < |picked| ==> picked[j] < picked[k]
  }

  lemma {:induction false} StillUnknownAgrees(a: seq<Bet>, b: seq<Bet>, picked: seq<nat>)
    requires |a| == |b| && Increasing(picked, |a|)
    requires forall k :: 0 <= k < |picked| ==> a[picked[k]] == b[picked[k]]
    ensures StillUnknown(a, picked) == StillUnknown(b, picked)
  {
    if picked != [] { StillUnknownAgrees(a, b, picked[..|picked| - 1]); }
  }

  /** Conservation: the UNKNOWN bets after a sweep are those before, less the selected
      ones that were resolved. */
  lemma {:induction false} SweptCount(bets: seq<Bet>, picked: seq<nat>, src: Sources)
    requires Increasing(picked, |bets|)
    requires forall k :: 0 <= k < |picked| ==> bets[picked[k]].state == UNKNOWN
    ensures CountUnknown(Swept(bets, picked, src))
            == CountUnknown(bets) - |picked| + StillUnknown(Swept(bets, picked, src), picked)
  {
    if picked != [] {
      var q, i := picked[..|picked| - 1], picked[|picked| - 1];
      SweptCount(bets, q, src);
      var p, r := Swept(bets, q, src), Swept(bets, picked, src);
      SweptElsewhere(bets, q, src, i);
      CountUpdate(p, i, Recover(p, i, src));
      StillUnknownAgrees(p, r, q);
    }
  }

  /** One turn of the sweep's loop. */
  lemma SweptOne(before: seq<Bet>, picked: seq<nat>, k: nat, src: Sources)
    requires Increasing(picked, |before|) && k < |picked|
    ensures var p, i := Swept(before, picked[..k], src), picked[k];
            var r := p[i := Recover(p, i, src)];
            && r == Swept(before, picked[..k + 1], src)
            && StillUnknown(r, picked[..k + 1])
               == StillUnknown(p, picked[..k]) + (if Recover(p, i, src).state == UNKNOWN then 1 else 0)
  {
    assert picked[..k + 1][..k] == picked[..k];
    var p, i := Swept(before, picked[..k], src), picked[k];
    StillUnknownAgrees(p, p[i := Recover(p, i, src)], picked[..k]);
  }

  class UnknownStateRecovery {
    const repo: BetRepository
    const maxBetsPerSweep: nat
    var isReconciling: bool

    constructor (repo: BetRepository, maxBetsPerSweep: nat)
      ensures this.repo == repo && this.maxBetsPerSweep == maxBetsPerSweep && !isReconciling
    {
      this.repo, this.maxBetsPerSweep, isReconciling := repo, maxBetsPerSweep, false;
    }

    /** `runRecoverySweep`. */
    method RunRecoverySweep(env: SweepEnv) returns (r: Option<SweepResult>)
      modifies this, repo
      ensures isReconciling == old(isReconciling)
      ensures (repo.bets, r) == SweepOutcome(old(repo.bets), maxBetsPerSweep, old(isReconciling), env)
    {
      if isReconciling { return Some(SweepResult(0, 0, 0)); }
      if !env.readOk { return None; }
      isReconciling := true;
      ghost var before := repo.bets;
      var unknownBets := FindUnknown(repo.bets, 0, maxBetsPerSweep);
      var resolved, k := 0, 0;
      while k < |unknownBets|
        invariant 0 <= k <= |unknownBets|
        invariant repo.bets == Swept(before, unknownBets[..k], env.src)
        invariant resolved + StillUnknown(repo.bets, unknownBets[..k]) == k
        modifies repo
      {
        SweptOne(before, unknownBets, k, env.src);
        var i := unknownBets[k];
        var recovered := Recover(repo.bets, i, env.src);
        repo.bets := repo.bets[i := recovered];
        if recovered.state != UNKNOWN { resolved := resolved + 1; }
        k := k + 1;
      }
      assert unknownBets[..|unknownBets|] == unknownBets;
      isReconciling := false;
      var manualReviewRequired := |unknownBets| - resolved;
      if manualReviewRequired > 0 && !env.eventOk { return None; }
      return Some(SweepResult(|unknownBets|, resolved, manualReviewRequired));
    }
  }

  // ----- what a sweep writes -----

  /** The whole number of hundredths nearest to x, the upper one of two. */
  ghost predicate IsNearestCent(p: real, x: real) {
    p * 100.0 == (p * 100.0).Floor as real && x - 0.005 < p <= x + 0.005
  }

  lemma RoundsToNearestCent(x: real)
    ensures IsNearestCent(Round2(x), x)
  {
    assert Round2(x) * 100.0 == (x * 100.0 + 0.5).Floor as real;
  }

  /** What is established about the k-th selected bet when its turn comes: its round is on
      file, and the provider answers, with the records as they are by then. */
  function EvidenceFor(bets: seq<Bet>, picked: seq<nat>, src: Sources, k: nat): Option<Evidence>
    requires k < |picked| && forall j :: 0 <= j < |picked| ==> picked[j] < |bets|
  {
    var b := bets[picked[k]];
    if b.round.None? || b.round.value !in src.rounds || src.provider.None? then None
    else
      var reply := src.provider.value(Swept(bets, picked[..k], src))(picked[k]);
      if reply.Says? && !reply.evidence.NotEstablished? then Some(reply.evidence) else None
  }

  /** The record that evidence asks for. */
  ghost predicate RecordFits(r: Bet, b: Bet, evidence: Option<Evidence>) {
    && r.round == b.round && r.stake == b.stake
    && match evidence
       case None => r == b
       case Some(WasLost) => r.state == LOST && r.pnl == Some(-b.stake)
       case Some(HasFailed) => r.state == FAILED && r.pnl == Some(0.0)
       case Some(CashedOutAt(None)) => r.state == CASHED_OUT && r.pnl == Some(0.0)
       case Some(CashedOutAt(Some(m))) =>
         r.state == CASHED_OUT && r.pnl.Some? && IsNearestCent(r.pnl.value, b.stake * m - b.stake)
       case Some(NotEstablished) => false
  }

  lemma {:induction false} SweptRecord(bets: seq<Bet>, picked: seq<nat>, src: Sources, k: nat)
    requires Increasing(picked, |bets|) && k < |picked|
    ensures Swept(bets, picked, src)[picked[k]] == Recover(Swept(bets, picked[..k], src), picked[k], src)
    ensures Swept(bets, picked[..k], src)[picked[k]] == bets[picked[k]]
  {
    SweptElsewhere(bets, picked[..k], src, picked[k]);
    if k < |picked| - 1 {
      assert picked[..|picked| - 1][..k] == picked[..k];
      SweptRecord(bets, picked[..|picked| - 1], src, k);
    }
  }

  /** A sweep writes what the evidence says and nothing else: an unselected record is as it
      was, a selected one is by its evidence, with round and stake as they were. */
  lemma SweepWritesEvidence(bets: seq<Bet>, cap: nat, src: Sources, i: nat)
    requires i < |bets|
    ensures var picked := FindUnknown(bets, 0, cap);
            && (i !in picked ==> Sweep(bets, cap, src)[i] == bets[i])
            && forall k :: 0 <= k < |picked| && picked[k] == i ==>
                 RecordFits(Sweep(bets, cap, src)[i], bets[i], EvidenceFor(bets, picked, src, k))
  {
    var picked := FindUnknown(bets, 0, cap);
    if i !in picked { SweptElsewhere(bets, picked, src, i); }
    forall k | 0 <= k < |picked| && picked[k] == i
      ensures RecordFits(Sweep(bets, cap, src)[i], bets[i], EvidenceFor(bets, picked, src, k))
    {
      SweptRecord(bets, picked, src, k);
      RecoverFits(Swept(bets, picked[..k], src), i, src);
    }
  }

  lemma RecoverFits(bets: seq<Bet>, i: nat, src: Sources)
    requires i < |bets|
    ensures var b := bets[i];
            var known := b.round.Some? && b.round.value in src.rounds && src.provider.Some?;
            var reply := if known then Some(src.provider.value(bets)(i)) else None;
            RecordFits(Recover(bets, i, src), b,
                       if reply.Some? && reply.value.Says? && !reply.value.evidence.NotEstablished?
                       then Some(reply.value.evidence) else None)
  {
    var b := bets[i];
    if b.round.Some? && b.round.value in src.rounds && src.provider.Some? {
      match src.provider.value(bets)(i)
      case Says(e) =>
        if e.CashedOutAt? && e.multiplier.Some? { RoundsToNearestCent(b.stake * e.multiplier.value - b.stake); }
      case _ =>
    }
  }

  /** A sweep that finds no other one running reports the truth: it takes as many UNKNOWN bets
      as there are up to the cap, resolved is by how much their number falls, and the rest are
      still UNKNOWN. It throws exactly if the bets cannot be read, or some are left and the
      event about them fails. */
  lemma SweepReportsTruth(bets: seq<Bet>, cap: nat, env: SweepEnv)
    ensures var n, (after, r) := CountUnknown(bets), SweepOutcome(bets, cap, false, env);
            var total := if n <= cap then n else cap;
            && (r.None? <==> !env.readOk || (n - CountUnknown(after) < total && !env.eventOk))
            && (r.Some? ==> r.value.totalUnknown == total && r.value.resolved == n - CountUnknown(after)
                            && r.value.stillUnknown == total - r.value.resolved)
            && SweepOutcome(bets, cap, true, env) == (bets, Some(SweepResult(0, 0, 0)))
  {
    var picked := FindUnknown(bets, 0, cap);
    assert bets[0..] == bets;
    FindUnknownSize(bets, 0, cap);
    SweptCount(bets, picked, env.src);
  }

  // ----- clearing by repeated sweeps -----

  /** The provider answers for every bet and every bet's round is on file. */
  ghost predicate AlwaysAnswers(bets: seq<Bet>, src: Sources) {
    && src.provider.Some?
    && (forall i :: 0 <= i < |bets| ==> bets[i].round.Some? && bets[i].round.value in src.rounds)
    && forall bs, i :: src.provider.value(bs)(i).Says? && !src.provider.value(bs)(i).evidence.NotEstablished?
  }

  lemma {:induction false} AllResolved(bets: seq<Bet>, picked: seq<nat>, src: Sources)
    requires Increasing(picked, |bets|) && AlwaysAnswers(bets, src)
    ensures StillUnknown(Swept(bets, picked, src), picked) == 0
    ensures AlwaysAnswers(Swept(bets, picked, src), src)
  {
    if picked != [] {
      var q, i := picked[..|picked| - 1], picked[|picked| - 1];
      AllResolved(bets, q, src);
      var p, r := Swept(bets, q, src), Swept(bets, picked, src);
      StillUnknownAgrees(p, r, q);
    }
  }

  lemma CountSplit(bets: seq<Bet>, from: nat)
    requires from < |bets|
    ensures CountUnknown(bets[from..])
            == (if bets[from].state == UNKNOWN then 1 else 0) + CountUnknown(bets[from + 1..])
    decreases |bets|
  {
    var s := bets[from..];
    if |s| > 1 {
      assert bets[..|bets| - 1][from..] == s[..|s| - 1];
      assert bets[..|bets| - 1][from + 1..] == bets[from + 1..][..|s| - 2];
      CountSplit(bets[..|bets| - 1], from);
    }
  }

  /** The selection is as large as the cap and the number of UNKNOWN bets allow. */
  lemma {:induction false} FindUnknownSize(bets: seq<Bet>, from: nat, limit: nat)
    requires from <= |bets|
    ensures |FindUnknown(bets, from, limit)|
            == if CountUnknown(bets[from..]) <= limit then CountUnknown(bets[from..]) else limit
    decreases |bets| - from
  {
    if from < |bets| {
      CountSplit(bets, from);
      if limit > 0 {
        FindUnknownSize(bets, from + 1, if bets[from].state == UNKNOWN then limit - 1 else limit);
      }
    }
  }

  function Sweeps(bets: seq<Bet>, cap: nat, src: Sources, times: nat): seq<Bet> {
    if times == 0 then bets else Sweep(Sweeps(bets, cap, src, times - 1), cap, src)
  }

  lemma OneSweep(bets: seq<Bet>, cap: nat, src: Sources)
    requires AlwaysAnswers(bets, src)
    ensures AlwaysAnswers(Sweep(bets, cap, src), src)
    ensures CountUnknown(Sweep(bets, cap, src))
            == if CountUnknown(bets) <= cap then 0 else CountUnknown(bets) - cap
  {
    var picked := FindUnknown(bets, 0, cap);
    assert bets[0..] == bets;
    FindUnknownSize(bets, 0, cap);
    SweptCount(bets, picked, src);
    AllResolved(bets, picked, src);
  }

  /** What is left after some sweeps. */
  lemma {:induction false} SweepsLeave(bets: seq<Bet>, cap: nat, src: Sources, times: nat)
    requires AlwaysAnswers(bets, src)
    ensures AlwaysAnswers(Sweeps(bets, cap, src, times), src)
    ensures CountUnknown(Sweeps(bets, cap, src, times))
            == if CountUnknown(bets) <= cap * times then 0 else CountUnknown(bets) - cap * times
  {
    if times > 0 {
      SweepsLeave(bets, cap, src, times - 1);
      OneSweep(Sweeps(bets, cap, src, times - 1), cap, src);
      assert cap * times == cap * (times - 1) + cap;
    }
  }

  /** With such sources ceil(n / cap) sweeps clear n UNKNOWN bets, and no fewer do. */
  lemma SweepsClear(bets: seq<Bet>, cap: nat, src: Sources, times: nat)
    requires AlwaysAnswers(bets, src) && cap > 0
    ensures CountUnknown(Sweeps(bets, cap, src, times)) == 0
            <==> times >= (CountUnknown(bets) + cap - 1) / cap
  {
    SweepsLeave(bets, cap, src, times);
    CeilBound(CountUnknown(bets), cap, times);
  }

  lemma CeilBound(n: nat, cap: nat, times: nat)
    requires cap > 0
    ensures n <= cap * times <==> times >= (n + cap - 1) / cap
  {
    var q := (n + cap - 1) / cap;
    assert cap * q <= n + cap - 1 < cap * q + cap;
    if times >= q { Factor(cap, q, times); } else { Factor(cap, times, q - 1); }
  }

  lemma Factor(c: nat, a: int, b: int)
    requires a <= b
    ensures c * a <= c * b
  {
  }

  // ----- balance reconciliation -----

  lemma NoneUnknown(bets: seq<Bet>)
    ensures CountUnknown(bets) == 0 <==> forall i :: 0 <= i < |bets| ==> bets[i].state != UNKNOWN
  {
    CountIsPositions(bets);
    if i: nat :| i < |bets| && bets[i].state == UNKNOWN { assert i in UnknownPositions(bets); }
    if i :| i in UnknownPositions(bets) { assert bets[i].state == UNKNOWN; }
  }

  datatype Reconciliation = Reconciliation(reconciled: bool, withinTolerance: bool, unresolvedBets: nat)

  /** What the collaborators of `reconcile` answer; None stands for a throw of the expected
      balance and for an unknown actual balance. */
  datatype Readings = Readings(
    expected: Option<real>, actual: Option<real>, countReadOk: bool, alertOk: bool, pauseOk: bool)

  datatype ReconciliationConfig = ReconciliationConfig(tolerance: real, emitAlerts: bool, haltOnMismatch: bool)

  const MAX_CONSECUTIVE_MISMATCHES := 3

  function Abs(x: real): real { if x < 0.0 then -x else x }

  predicate Balanced(x: Readings, tolerance: real) {
    x.expected.Some? && x.actual.Some? && Abs(Round2(x.actual.value - x.expected.value)) <= tolerance
  }

  /** Balanced means that both balances are known and that their difference, to the nearest
      hundredth, is within the tolerance on either side. */
  lemma BalancedIff(x: Readings, tolerance: real, cents: real)
    requires x.expected.Some? && x.actual.Some? ==> IsNearestCent(cents, x.actual.value - x.expected.value)
    ensures Balanced(x, tolerance) <==> x.expected.Some? && x.actual.Some? && -tolerance <= cents <= tolerance
  {
    if x.expected.Some? && x.actual.Some? {
      var d := x.actual.value - x.expected.value;
      RoundsToNearestCent(d);
      NearestCentIsUnique(cents, Round2(d), d);
    }
  }

  lemma NearestCentIsUnique(p: real, q: real, x: real)
    requires IsNearestCent(p, x) && IsNearestCent(q, x)
    ensures p == q
  {
    assert -1.0 < ((p * 100.0).Floor - (q * 100.0).Floor) as real < 1.0;
  }

  /** `handleMismatch` throws: an alert fails, or the pause that the third mismatch in a row
      brings. */
  predicate MismatchThrows(x: Readings, mismatches: nat, cfg: ReconciliationConfig) {
    || (cfg.emitAlerts && !x.alertOk)
    || (cfg.haltOnMismatch && mismatches >= MAX_CONSECUTIVE_MISMATCHES && !x.pauseOk)
  }

  /** What `reconcile` returns when `unknown` bets are UNKNOWN after `mismatches` mismatches
      in a row; None when it throws. */
  function Judge(x: Readings, unknown: nat, mismatches: nat, cfg: ReconciliationConfig): Option<Reconciliation> {
    var unresolved, balanced := if x.countReadOk then unknown else 0, Balanced(x, cfg.tolerance);
    if x.expected.None? then None
    else if x.actual.None? then Some(Reconciliation(false, false, unresolved))
    else if !balanced && MismatchThrows(x, mismatches + 1, cfg) then None
    else Some(Reconciliation(balanced && unresolved == 0, balanced, unresolved))
  }

  class BalanceReconciliation {
    const repo: BetRepository
    const config: ReconciliationConfig
    var consecutiveMismatches: nat
    var lastResult: Option<Reconciliation>

    constructor (repo: BetRepository, config: ReconciliationConfig)
      ensures this.repo == repo && this.config == config && consecutiveMismatches == 0 && lastResult == None
    {
      this.repo, this.config := repo, config;
      consecutiveMismatches, lastResult := 0, None;
    }

    /** The number of bets in state UNKNOWN, or 0 when it cannot be read: 0 does not mean
        that there are none. */
    method CountUnresolvedBets(readOk: bool) returns (n: nat)
      ensures readOk ==> n == |UnknownPositions(repo.bets)|
      ensures n == 0 <==> !readOk || forall i :: 0 <= i < |repo.bets| ==> repo.bets[i].state != UNKNOWN
    {
      CountIsPositions(repo.bets);
      n := if readOk then CountUnknown(repo.bets) else 0;
      if readOk { NoneUnknown(repo.bets); }
    }

    /** `handleMismatch`; false when it throws. */
    method HandleMismatch(x: Readings) returns (ok: bool)
      ensures ok <==> !MismatchThrows(x, consecutiveMismatches, config)
    {
      if config.emitAlerts && !x.alertOk { return false; }
      var shouldHalt := consecutiveMismatches >= MAX_CONSECUTIVE_MISMATCHES;
      if config.haltOnMismatch && shouldHalt && !x.pauseOk { return false; }
      return true;
    }

    /** `reconcile`; None when it throws. Mismatches are counted until the next match. */
    method Reconcile(x: Readings) returns (r: Option<Reconciliation>)
      modifies this
      ensures r == Judge(x, CountUnknown(repo.bets), old(consecutiveMismatches), config)
      ensures lastResult == if r.Some? then r else old(lastResult)
      ensures consecutiveMismatches ==
                if x.expected.None? || x.actual.None? then old(consecutiveMismatches)
                else if Balanced(x, config.tolerance) then 0
                else old(consecutiveMismatches) + 1
    {
      if x.expected.None? { return None; }
      CountIsPositions(repo.bets);
      var unresolved := CountUnresolvedBets(x.countReadOk);
      if x.actual.None? {
        lastResult := Some(Reconciliation(false, false, unresolved));
        return lastResult;
      }
      var difference := Round2(x.actual.value - x.expected.value);
      var withinTolerance := Abs(difference) <= config.tolerance;
      if !withinTolerance {
        consecutiveMismatches := consecutiveMismatches + 1;
        var ok := HandleMismatch(x);
        if !ok { return None; }
      } else {
        consecutiveMismatches := 0;
      }
      lastResult := Some(Reconciliation(withinTolerance && unresolved == 0, withinTolerance, unresolved));
      return lastResult;
    }
  }

  function PnlTotal(rows: seq<Option<real>>): real {
    if rows == [] then 0.0
    else PnlTotal(rows[..|rows| - 1]) + (if rows[|rows| - 1].Some? then rows[|rows| - 1].value else 0.0)
  }

  lemma PnlSnoc(rows: seq<Option<real>>, k: nat)
    requires k < |rows|
    ensures PnlTotal(rows[..k + 1]) == PnlTotal(rows[..k]) + (if rows[k].Some? then rows[k].value else 0.0)
  {
    assert rows[..k + 1][..k] == rows[..k];
  }

  const PAGE_SIZE := 1000
  const SAFETY_STOP := 1000000

  /** The paging loop over the bets of one state, here their P&L columns: it totals all
      rows up to the safety stop, which comes after 1,001,000 rows. */
  method TotalByPages(rows: seq<Option<real>>) returns (total: real)
    ensures total == PnlTotal(if |rows| <= 1001000 then rows else rows[..1001000])
  {
    total := 0.0;
    var offset := 0;
    while true
      invariant 0 <= offset <= SAFETY_STOP && offset % PAGE_SIZE == 0 && offset <= |rows|
      invariant total == PnlTotal(rows[..offset])
      decreases SAFETY_STOP - offset
    {
      var end := if offset + PAGE_SIZE <= |rows| then offset + PAGE_SIZE else |rows|;
      var page := rows[offset..end];
      if |page| == 0 { break; }
      var k := 0;
      while k < |page|
        invariant 0 <= k <= |page|
        invariant total == PnlTotal(rows[..offset + k])
      {
        PnlSnoc(rows, offset + k);
        if page[k].Some? { total := total + page[k].value; }
        k := k + 1;
      }
      if |page| < PAGE_SIZE {
        assert rows[..offset + k] == rows;
        return;
      }
      offset := offset + PAGE_SIZE;
      if offset > SAFETY_STOP {
        assert offset == SAFETY_STOP + PAGE_SIZE;
        assert |rows| == offset ==> rows[..offset] == rows;
        return;
      }
    }
    assert rows[..offset] == rows;
  }

  // ----- the recovery manager -----

  datatype Phase = Idle | Checking | ReconcilingBets | ReconcilingBalance | Resuming | FailedPhase

  datatype Config = Config(haltDuringRecovery: bool, requireZeroUnknown: bool, requireReconciliation: bool)

  const DEFAULT_CONFIG := Config(true, true, true)

  /** How a forced resumption ends: both `Refused` and `ResumedButRejected` are a throw. */
  datatype Forced = Refused | Resumed | ResumedButRejected

  datatype RecoveryResult = RecoveryResult(phase: Phase, canResume: bool)

  /** `evaluateResumption`. */
  function CanResume(cfg: Config, sweep: Option<SweepResult>, balance: Option<Reconciliation>, errors: bool): bool {
    && !errors
    && (cfg.requireZeroUnknown && sweep.Some? ==> sweep.value.stillUnknown == 0)
    && (cfg.requireReconciliation && balance.Some? ==> balance.value.reconciled)
  }

  /** The failures and arrivals of one recovery. */
  datatype Env = Env(
    firstCountOk: bool, pausedOk: bool, sweep: SweepEnv, readings: Readings, resumedOk: bool, arrivals: seq<Bet>)

  /** What the recovery finds around it: the sweep's cap and whether one is running, and
      the reconciliation's mismatches so far and its configuration. */
  datatype Setting = Setting(cap: nat, busy: bool, mismatches: nat, checks: ReconciliationConfig)

  /** The bets after the sweep, its result if it was needed and did not throw, and whether
      it did not throw. */
  function SweepPhase(bets: seq<Bet>, at: Setting, env: Env): (seq<Bet>, Option<SweepResult>, bool) {
    if CountUnknown(bets) == 0 then (bets, None, true)
    else var (after, r) := SweepOutcome(bets, at.cap, at.busy, env.sweep); (after, r, r.Some?)
  }

  /** The bets after a whole recovery, and whether betting may resume. */
  function Recovered(cfg: Config, bets: seq<Bet>, at: Setting, env: Env): (seq<Bet>, bool) {
    if !env.firstCountOk || (CountUnknown(bets) > 0 && cfg.haltDuringRecovery && !env.pausedOk) then (bets, false)
    else
      var (swept, sweep, done) := SweepPhase(bets, at, env);
      var after := swept + env.arrivals;
      var r := Judge(env.readings, CountUnknown(after), at.mismatches, at.checks);
      (after, CanResume(cfg, sweep, r, !done || r.None?) && env.resumedOk)
  }

  class RecoveryManager {
    const config: Config
    const repo: BetRepository
    const sweeper: UnknownStateRecovery
    const balance: BalanceReconciliation
    var phase: Phase
    var halted: bool
    var lastResult: Option<RecoveryResult>

    constructor (config: Config, sweeper: UnknownStateRecovery, balance: BalanceReconciliation)
      requires sweeper.repo == balance.repo
      ensures this.config == config && this.sweeper == sweeper && this.balance == balance
      ensures repo == sweeper.repo == balance.repo && phase == Idle && !halted
    {
      this.config, this.sweeper, this.balance, repo := config, sweeper, balance, sweeper.repo;
      phase, halted, lastResult := Idle, false, None;
    }

    predicate IsHalted() reads this { halted || phase != Idle }

    ghost function Situation(): Setting reads this, sweeper, balance {
      Setting(sweeper.maxBetsPerSweep, sweeper.isReconciling, balance.consecutiveMismatches, balance.config)
    }

    /** `runRecovery`. On every path halted is what the result says. */
    method RunRecovery(env: Env) returns (r: RecoveryResult)
      requires repo == sweeper.repo == balance.repo
      modifies this, repo, sweeper, balance
      ensures IsHalted() == !r.canResume && lastResult == Some(r)
      ensures (repo.bets, r.canResume) == Recovered(config, old(repo.bets), old(Situation()), env)
    {
      phase := Checking;
      if !env.firstCountOk {
        r := Crash();
        return;
      }
      var unknownCount := CountUnknown(repo.bets);
      if unknownCount > 0 && config.haltDuringRecovery {
        halted := true;
        if !env.pausedOk {
          r := Crash();
          return;
        }
      }
      var errors := false;
      var betRecovery: Option<SweepResult> := None;
      if unknownCount > 0 {
        phase := ReconcilingBets;
        betRecovery := sweeper.RunRecoverySweep(env.sweep);
        if betRecovery.None? { errors := true; }
      }
      repo.bets := repo.bets + env.arrivals;
      phase := ReconcilingBalance;
      var reconciliation := balance.Reconcile(env.readings);
      if reconciliation.None? { errors := true; }
      phase := Resuming;
      var canResume := CanResume(config, betRecovery, reconciliation, errors);
      r := Conclude(canResume, env.resumedOk);
    }

    /** The end of `runRecovery`, with the event that announces a resumption. */
    method Conclude(canResume: bool, resumedOk: bool) returns (r: RecoveryResult)
      modifies this
      ensures r == (if canResume && resumedOk then RecoveryResult(Idle, true) else RecoveryResult(FailedPhase, false))
      ensures lastResult == Some(r) && phase == r.phase && halted == !r.canResume
    {
      if canResume {
        halted := false;
        if !resumedOk {
          r := Crash();
          return;
        }
      } else {
        halted := true;
      }
      r := RecoveryResult(if canResume then Idle else FailedPhase, canResume);
      lastResult := Some(r);
      phase := r.phase;
    }

    /** The outer catch block. */
    method Crash() returns (r: RecoveryResult)
      modifies this
      ensures r == RecoveryResult(FailedPhase, false) && lastResult == Some(r)
      ensures halted && phase == FailedPhase
    {
      phase := FailedPhase;
      halted := true;
      r := RecoveryResult(FailedPhase, false);
      lastResult := Some(r);
    }

    /** `forceResume`: refused without operator and reason, when the count cannot be read,
        or while UNKNOWN bets remain, and then it changes nothing. Its events come after the
        change of state, so the call can be rejected although it took effect. */
    method ForceResume(signed: bool, countOk: bool, eventsOk: bool) returns (r: Forced)
      modifies this
      ensures r.Refused? <==> !signed || !countOk || CountUnknown(repo.bets) > 0
      ensures r.Refused? ==> phase == old(phase) && halted == old(halted)
      ensures !r.Refused? ==> !IsHalted() && (r.ResumedButRejected? <==> !eventsOk)
      ensures lastResult == old(lastResult)
    {
      if !signed { return Refused; }
      if !countOk { return Refused; }
      if CountUnknown(repo.bets) > 0 { return Refused; }
      halted := false;
      phase := Idle;
      if !eventsOk { return ResumedButRejected; }
      return Resumed;
    }
  }

  /** Under the default gates, when the count is read, resuming means that no bet is
      UNKNOWN any more, although the sweep is capped and bets may arrive meanwhile. */
  lemma ResumedMeansClear(bets: seq<Bet>, at: Setting, env: Env)
    requires env.readings.countReadOk && Recovered(DEFAULT_CONFIG, bets, at, env).1
    ensures CountUnknown(Recovered(DEFAULT_CONFIG, bets, at, env).0) == 0
    ensures Balanced(env.readings, at.checks.tolerance)
  {
  }

  /** The reconciliation does not fail: the expected balance is known, and at a mismatch
      neither an alert fails nor the pause that the third mismatch in a row brings. */
  predicate ReconciliationEnds(at: Setting, x: Readings) {
    && x.expected.Some?
    && (x.actual.Some? && !Balanced(x, at.checks.tolerance) ==>
          && (at.checks.emitAlerts ==> x.alertOk)
          && (at.checks.haltOnMismatch && at.mismatches >= 2 ==> x.pauseOk))
  }

  /** Exactly when betting resumes, under any gates and whatever fails. */
  lemma ResumesUnderGatesIff(cfg: Config, bets: seq<Bet>, at: Setting, env: Env)
    ensures var (after, resumed) := Recovered(cfg, bets, at, env);
            var left := StillUnknown(Sweep(bets, at.cap, env.sweep.src), FindUnknown(bets, 0, at.cap));
            resumed <==>
              && env.firstCountOk && env.resumedOk && ReconciliationEnds(at, env.readings)
              && (CountUnknown(bets) > 0 && cfg.haltDuringRecovery ==> env.pausedOk)
              && (CountUnknown(bets) > 0 && !at.busy ==>
                    env.sweep.readOk && (left == 0 || (env.sweep.eventOk && !cfg.requireZeroUnknown)))
              && (cfg.requireReconciliation ==>
                    && Balanced(env.readings, at.checks.tolerance)
                    && (CountUnknown(after) == 0 || !env.readings.countReadOk))
  {
  }

  /** Under the default gates: the first count and the last event succeed, the balances
      match, the sweep was needless, or was not skipped and left none of its bets UNKNOWN, or
      found another one running, and no bet at all is UNKNOWN or the second count could not
      be read. */
  lemma ResumesIff(bets: seq<Bet>, at: Setting, env: Env)
    ensures var (after, resumed) := Recovered(DEFAULT_CONFIG, bets, at, env);
            resumed <==>
              && env.firstCountOk && env.resumedOk && Balanced(env.readings, at.checks.tolerance)
              && (CountUnknown(bets) > 0 ==>
                    && env.pausedOk
                    && (at.busy || (env.sweep.readOk
                          && StillUnknown(Sweep(bets, at.cap, env.sweep.src), FindUnknown(bets, 0, at.cap)) == 0)))
              && (CountUnknown(after) == 0 || !env.readings.countReadOk)
  {
    ResumesUnderGatesIff(DEFAULT_CONFIG, bets, at, env);
  }

  /** So a failed read is the one way past UNKNOWN bets, and then no number of them stops it:
      whatever bets arrive during such a recovery, betting resumes. */
  lemma UnreadCountLetsUnknownPass(arrivals: seq<Bet>) returns (at: Setting, env: Env)
    ensures var (after, resumed) := Recovered(DEFAULT_CONFIG, [], at, env);
            resumed && after == arrivals && !env.readings.countReadOk
  {
    at := Setting(50, false, 0, ReconciliationConfig(0.01, true, true));
    var src := Sources({}, None);
    env := Env(true, true, SweepEnv(src, true, true),
               Readings(Some(10.0), Some(10.0), false, true, true), true, arrivals);
    assert Round2(0.0) == 0.0;
    assert [] + arrivals == arrivals;
  }

  /** The gate on the sweep alone does not do this: a sweep that leaves none of its bets
      UNKNOWN leaves no bet UNKNOWN if and only if there were no more than the cap. */
  lemma SweepGateIff(bets: seq<Bet>, cap: nat, src: Sources)
    requires StillUnknown(Sweep(bets, cap, src), FindUnknown(bets, 0, cap)) == 0
    ensures CountUnknown(Sweep(bets, cap, src)) == 0 <==> CountUnknown(bets) <= cap
  {
    assert bets[0..] == bets;
    FindUnknownSize(bets, 0, cap);
    SweptCount(bets, FindUnknown(bets, 0, cap), src);
  }
}
