/** `CashOutController.runMonitor`: the race of tick, crash, cash-out reply, safety timeout
    and abort. Each callback runs without interruption; `executeCashOut` is split at its
    two awaits, and its result is delivered in a step of its own. */
module CashOut {
  import opened Options

  datatype FinalState = CASHED_OUT | LOST | FAILED | UNKNOWN

  /** Where `executeCashOut` stands. */
  datatype Exec = NotStarted | Requesting | AwaitingConfirmation | Ended(success: bool) | Delivered

  /** `triggered`, `confirmed` and `failed` (its error is set) are the controller's state;
      `resolved` is the promise; `requests` counts calls of `requestCashOut`. */
  datatype State = State(
    triggered: bool, inFlight: bool, aborted: bool, confirmed: bool, failed: bool,
    resolved: Option<FinalState>, exec: Exec, requests: nat)

  datatype Reply = Yes | No | Threw

  datatype Event =
    | Tick(multiplier: real)
    | Crash
    | RequestReply(reply: Reply)
    | ConfirmReply(reply: Reply)
    | Deliver
    | SafetyTimeout
    | Abort

  const INITIAL := State(false, false, false, false, false, None, NotStarted, 0)

  function Resolve(s: State, f: FinalState): State {
    if s.resolved.Some? then s else s.(resolved := Some(f))
  }

  predicate Triggers(s: State, m: real, target: real) {
    s.resolved.None? && !s.aborted && m >= target && !s.inFlight && !s.triggered
  }

  function DeliverStep(s: State): State
    requires s.exec.Ended?
  {
    var t := s.(exec := Delivered);
    if s.resolved.Some? then t
    else if s.exec.success then Resolve(t.(confirmed := true), CASHED_OUT)
    else Resolve(t.(failed := true), FAILED)
  }

  function Step(s: State, e: Event, target: real): State {
    match e
    case Tick(m) =>
      if Triggers(s, m, target)
      then s.(triggered := true, inFlight := true, exec := Requesting, requests := s.requests + 1)
      else s
    case Crash => if s.resolved.None? && !s.inFlight && !s.triggered then Resolve(s, LOST) else s
    case RequestReply(r) =>
      if !s.exec.Requesting? then s
      else s.(exec := if r == Yes then AwaitingConfirmation else Ended(false))
    case ConfirmReply(r) => if s.exec.AwaitingConfirmation? then s.(exec := Ended(r == Yes)) else s
    case Deliver => if s.exec.Ended? then DeliverStep(s) else s
    case SafetyTimeout => Resolve(s, UNKNOWN)
    case Abort => s.(aborted := true)
  }

  function Run(es: seq<Event>, target: real): State {
    if es == [] then INITIAL else Step(Run(es[..|es| - 1], target), es[|es| - 1], target)
  }

  class CashOutController {
    const targetMultiplier: real
    var triggered: bool
    var cashOutInFlight: bool
    var aborted: bool
    var confirmed: bool
    var failed: bool
    var resolved: Option<FinalState>
    var exec: Exec
    var requests: nat

    ghost function Abstract(): State reads this {
      State(triggered, cashOutInFlight, aborted, confirmed, failed, resolved, exec, requests)
    }

    constructor (targetMultiplier: real)
      ensures Abstract() == INITIAL && this.targetMultiplier == targetMultiplier
    {
      this.targetMultiplier := targetMultiplier;
      triggered, cashOutInFlight, aborted, confirmed, failed := false, false, false, false, false;
      resolved, exec, requests := None, NotStarted, 0;
    }

    method ResolveOnce(f: FinalState)
      modifies this`resolved
      ensures Abstract() == Resolve(old(Abstract()), f)
    {
      if resolved.Some? { return; }
      resolved := Some(f);
    }

    method OnTick(multiplier: real)
      modifies this
      ensures Abstract() == Step(old(Abstract()), Tick(multiplier), targetMultiplier)
    {
      if resolved.Some? || aborted { return; }
      if multiplier >= targetMultiplier && !cashOutInFlight && !triggered {
        cashOutInFlight := true;
        triggered := true;
        exec := Requesting;
        requests := requests + 1;
      }
    }

    method OnCrash()
      modifies this
      ensures Abstract() == Step(old(Abstract()), Crash, targetMultiplier)
    {
      if resolved.Some? { return; }
      if cashOutInFlight { return; }
      if !triggered { ResolveOnce(LOST); }
    }

    /** The handler attached to `executeCashOut`. */
    method OnExecuted()
      requires exec.Ended?
      modifies this
      ensures Abstract() == Step(old(Abstract()), Deliver, targetMultiplier)
    {
      var success := exec.success;
      exec := Delivered;
      if resolved.Some? { return; }
      if success {
        confirmed := true;
        ResolveOnce(CASHED_OUT);
      } else {
        failed := true;
        ResolveOnce(FAILED);
      }
    }

    method OnSafetyTimeout()
      modifies this
      ensures Abstract() == Step(old(Abstract()), SafetyTimeout, targetMultiplier)
    {
      if resolved.None? { ResolveOnce(UNKNOWN); }
    }
  }

  ghost predicate Inv(s: State) {
    && s.triggered == s.inFlight == !s.exec.NotStarted?
    && s.requests == (if s.triggered then 1 else 0)
    && (s.confirmed <==> s.resolved == Some(CASHED_OUT))
    && (s.failed <==> s.resolved == Some(FAILED))
    && (s.exec.Delivered? ==> s.resolved.Some?)
    && (s.resolved == Some(LOST) ==> !s.triggered)
  }

  lemma {:induction false} RunKeepsInv(es: seq<Event>, target: real)
    ensures Inv(Run(es, target))
  {
    if es != [] { RunKeepsInv(es[..|es| - 1], target); }
  }

  /** The promise resolves at most once: its value at any moment is its value for good. */
  lemma {:induction false} ResolvedOnce(es: seq<Event>, target: real, n: nat)
    requires n <= |es| && Run(es[..n], target).resolved.Some?
    ensures Run(es, target).resolved == Run(es[..n], target).resolved
  {
    if n == |es| {
      assert es[..n] == es;
    } else {
      assert es[..|es| - 1][..n] == es[..n];
      ResolvedOnce(es[..|es| - 1], target, n);
    }
  }

  /** In every order of events cash-out is requested at most once, and the confirmed flag
      holds exactly when the result is CASHED_OUT. */
  lemma RequestedOnceAndConfirmedExactly(es: seq<Event>, target: real)
    ensures var s := Run(es, target);
            s.requests <= 1 && (s.confirmed <==> s.resolved == Some(CASHED_OUT))
            && (s.resolved == Some(CASHED_OUT) || s.resolved == Some(FAILED) ==> s.requests == 1)
  {
    RunKeepsInv(es, target);
  }

  /** A LOST result at any moment of a run means that no cash-out has been requested or
      will be, however the run goes on. */
  lemma LostMeansNeverRequested(es: seq<Event>, target: real, n: nat)
    requires n <= |es| && Run(es[..n], target).resolved == Some(LOST)
    ensures Run(es, target).requests == 0
  {
    ResolvedOnce(es, target, n);
    RunKeepsInv(es, target);
  }

  /** Conversely, once a tick has triggered the cash-out the result is never LOST. */
  lemma {:induction false} TriggeredIsNeverLost(es: seq<Event>, target: real, n: nat)
    requires n < |es| && es[n].Tick? && Triggers(Run(es[..n], target), es[n].multiplier, target)
    ensures Run(es, target).triggered && Run(es, target).resolved != Some(LOST)
  {
    if n < |es| - 1 {
      assert es[..|es| - 1][..n] == es[..n];
      TriggeredIsNeverLost(es[..|es| - 1], target, n);
    }
    RunKeepsInv(es, target);
  }

  /** What must have happened for each stage of a cash-out. */
  ghost predicate Earned(s: State, es: seq<Event>, target: real) {
    && (s.triggered ==> exists k :: 0 <= k < |es| && es[k].Tick? && es[k].multiplier >= target)
    && (s.exec.AwaitingConfirmation? || s.exec == Ended(true) || s.confirmed ==> RequestReply(Yes) in es)
    && (s.exec == Ended(true) || s.confirmed ==> ConfirmReply(Yes) in es)
  }

  lemma EarnedStays(s: State, p: seq<Event>, es: seq<Event>, target: real)
    requires Earned(s, p, target) && p <= es
    ensures Earned(s, es, target)
  {
    forall e | e in p ensures e in es { var k :| 0 <= k < |p| && p[k] == e; assert es[k] == e; }
  }

  lemma {:induction false} RunIsEarned(es: seq<Event>, target: real)
    ensures Earned(Run(es, target), es, target)
  {
    if es != [] {
      var p := es[..|es| - 1];
      RunIsEarned(p, target);
      RunKeepsInv(p, target);
      EarnedStays(Run(p, target), p, es, target);
    }
  }

  /** CASHED_OUT is reported only after a tick at the target, an accepted request and a
      positive confirmation. */
  lemma CashedOutIsEarned(es: seq<Event>, target: real)
    requires Run(es, target).resolved == Some(CASHED_OUT)
    ensures RequestReply(Yes) in es && ConfirmReply(Yes) in es
    ensures exists k :: 0 <= k < |es| && es[k].Tick? && es[k].multiplier >= target
  {
    RunIsEarned(es, target);
    RunKeepsInv(es, target);
  }

  /** An abort before the trigger is final: cash-out is never requested. */
  lemma {:induction false} AbortStops(es: seq<Event>, target: real, n: nat)
    requires n <= |es| && Run(es[..n], target).aborted && !Run(es[..n], target).triggered
    ensures Run(es, target).aborted && !Run(es, target).triggered && Run(es, target).requests == 0
  {
    RunKeepsInv(es, target);
    if n == |es| {
      assert es[..n] == es;
    } else {
      assert es[..|es| - 1][..n] == es[..n];
      AbortStops(es[..|es| - 1], target, n);
    }
  }

  /** How a monitor ends that can no longer trigger: by the first crash or safety timeout. */
  function EndsAs(es: seq<Event>): Option<FinalState> {
    if es == [] then None
    else
      var before := EndsAs(es[..|es| - 1]);
      if before.Some? then before
      else match es[|es| - 1]
        case Crash => Some(LOST)
        case SafetyTimeout => Some(UNKNOWN)
        case _ => None
  }

  lemma {:induction false} EndsIff(es: seq<Event>)
    ensures EndsAs(es).Some? <==> Crash in es || SafetyTimeout in es
  {
    if es != [] {
      EndsIff(es[..|es| - 1]);
      assert es == es[..|es| - 1] + [es[|es| - 1]];
    }
  }

  lemma {:induction false} EndsByFirst(es: seq<Event>, target: real, n: nat)
    requires n <= |es|
    requires var s := Run(es[..n], target); s.aborted && !s.triggered && s.resolved.None?
    ensures Run(es, target).resolved == EndsAs(es[n..]) && !Run(es, target).triggered
  {
    AbortStops(es, target, n);
    if n == |es| {
      assert es[..n] == es && es[n..] == [];
    } else {
      var p := es[..|es| - 1];
      assert p[..n] == es[..n] && es[n..][..|es| - n - 1] == p[n..];
      EndsByFirst(p, target, n);
      RunKeepsInv(p, target);
    }
  }

  /** The documentation lists an abort among what resolves the monitor's promise. An abort
      only sets a flag: an aborted monitor that has not triggered resolves if and only if a
      crash or the safety timeout follows, as LOST or UNKNOWN, whichever comes first. */
  lemma AbortedResolvesIff(es: seq<Event>, target: real, n: nat)
    requires n <= |es|
    requires var s := Run(es[..n], target); s.aborted && !s.triggered && s.resolved.None?
    ensures Run(es, target).resolved == EndsAs(es[n..])
    ensures Run(es, target).resolved.Some? <==> Crash in es[n..] || SafetyTimeout in es[n..]
  {
    EndsByFirst(es, target, n);
    EndsIff(es[n..]);
  }

  /** A monitor that is aborted and then only sees ticks never resolves. */
  lemma AbortAloneNeverResolves(ticks: seq<Event>, target: real)
    requires forall k :: 0 <= k < |ticks| ==> ticks[k].Tick?
    ensures Run([Abort] + ticks, target).resolved.None?
  {
    var es := [Abort] + ticks;
    assert es[..1] == [Abort] && [Abort][..0] == [] && es[1..] == ticks;
    AbortedResolvesIff(es, target, 1);
  }

  /** The monitor cannot hang: after the safety timeout it is resolved. */
  lemma TimeoutResolves(es: seq<Event>, target: real)
    requires SafetyTimeout in es
    ensures Run(es, target).resolved.Some?
  {
    var k :| 0 <= k < |es| && es[k] == SafetyTimeout;
    assert es[..k + 1][..k] == es[..k];
    ResolvedOnce(es, target, k + 1);
  }

  // ----- which answers led to the result -----

  /** The answer is to a call that is waiting for it. */
  predicate TakesEffect(s: State, e: Event) {
    match e
    case RequestReply(_) => s.exec.Requesting?
    case ConfirmReply(_) => s.exec.AwaitingConfirmation?
    case _ => true
  }

  ghost predicate HeardAt(es: seq<Event>, target: real, e: Event, k: nat) {
    k < |es| && es[k] == e && TakesEffect(Run(es[..k], target), e)
  }

  ghost predicate Heard(es: seq<Event>, target: real, e: Event) {
    exists k: nat :: HeardAt(es, target, e, k)
  }

  lemma HeardSnoc(es: seq<Event>, next: Event, target: real, e: Event)
    ensures Heard(es + [next], target, e) <==> Heard(es, target, e) || (next == e && TakesEffect(Run(es, target), e))
  {
    var fs := es + [next];
    assert fs[..|es|] == es;
    if Heard(es, target, e) {
      var k: nat :| HeardAt(es, target, e, k);
      assert fs[..k] == es[..k];
      assert HeardAt(fs, target, e, k);
    }
    if next == e && TakesEffect(Run(es, target), e) { assert HeardAt(fs, target, e, |es|); }
    if Heard(fs, target, e) {
      var k: nat :| HeardAt(fs, target, e, k);
      if k < |es| {
        assert fs[..k] == es[..k];
        assert HeardAt(es, target, e, k);
      }
    }
  }

  /** The answers heard: whether the request was accepted, or refused or threw, and whether
      the confirmation was positive, or negative or threw. */
  datatype Answers = Answers(requested: bool, refused: bool, confirmed: bool, unconfirmed: bool)

  ghost function AnswersIn(es: seq<Event>, target: real): Answers {
    Answers(Heard(es, target, RequestReply(Yes)),
            Heard(es, target, RequestReply(No)) || Heard(es, target, RequestReply(Threw)),
            Heard(es, target, ConfirmReply(Yes)),
            Heard(es, target, ConfirmReply(No)) || Heard(es, target, ConfirmReply(Threw)))
  }

  function Add(a: Answers, s: State, e: Event): Answers {
    if !TakesEffect(s, e) then a
    else match e
      case RequestReply(r) => if r == Yes then a.(requested := true) else a.(refused := true)
      case ConfirmReply(r) => if r == Yes then a.(confirmed := true) else a.(unconfirmed := true)
      case _ => a
  }

  lemma AnswersSnoc(es: seq<Event>, e: Event, target: real)
    ensures AnswersIn(es + [e], target) == Add(AnswersIn(es, target), Run(es, target), e)
  {
    HeardSnoc(es, e, target, RequestReply(Yes));
    HeardSnoc(es, e, target, RequestReply(No));
    HeardSnoc(es, e, target, RequestReply(Threw));
    HeardSnoc(es, e, target, ConfirmReply(Yes));
    HeardSnoc(es, e, target, ConfirmReply(No));
    HeardSnoc(es, e, target, ConfirmReply(Threw));
  }

  /** Where `executeCashOut` stands by what it has heard. */
  predicate ExecFits(x: Exec, a: Answers) {
    match x
    case NotStarted => a == Answers(false, false, false, false)
    case Requesting => a == Answers(false, false, false, false)
    case AwaitingConfirmation => a == Answers(true, false, false, false)
    case Ended(success) =>
      if success then a == Answers(true, false, true, false)
      else a == Answers(false, true, false, false) || a == Answers(true, false, false, true)
    case Delivered => true
  }

  lemma StepKeepsFit(s: State, e: Event, target: real, a: Answers)
    requires Inv(s) && ExecFits(s.exec, a)
    ensures ExecFits(Step(s, e, target).exec, Add(a, s, e))
  {
  }

  lemma {:induction false} RunFits(es: seq<Event>, target: real)
    ensures ExecFits(Run(es, target).exec, AnswersIn(es, target))
  {
    if es == [] {
      assert !exists e: Event, k: nat :: HeardAt(es, target, e, k);
    } else {
      var p, e := es[..|es| - 1], es[|es| - 1];
      assert es == p + [e];
      RunFits(p, target);
      RunKeepsInv(p, target);
      AnswersSnoc(p, e, target);
      StepKeepsFit(Run(p, target), e, target, AnswersIn(p, target));
    }
  }

  /** When what `executeCashOut` returns is the first to resolve the monitor, the result is
      CASHED_OUT, and confirmed, if and only if the request and then the confirmation were
      answered yes; it is FAILED if and only if one of the two was refused or threw. */
  lemma DeliveredIff(es: seq<Event>, target: real, n: nat)
    requires n < |es| && es[n] == Deliver
    requires Run(es[..n], target).resolved.None? && Run(es[..n], target).exec.Ended?
    ensures var s, t := es[..n], Run(es, target);
            && (t.resolved == Some(CASHED_OUT) <==>
                  Heard(s, target, RequestReply(Yes)) && Heard(s, target, ConfirmReply(Yes)))
            && (t.resolved == Some(FAILED) <==>
                  || Heard(s, target, RequestReply(No)) || Heard(s, target, RequestReply(Threw))
                  || Heard(s, target, ConfirmReply(No)) || Heard(s, target, ConfirmReply(Threw)))
            && (t.resolved == Some(CASHED_OUT) || t.resolved == Some(FAILED))
            && (t.confirmed <==> t.resolved == Some(CASHED_OUT))
  {
    RunFits(es[..n], target);
    RunKeepsInv(es, target);
    assert es[..n + 1][..n] == es[..n];
    ResolvedOnce(es, target, n + 1);
  }

  /** The confirmation is heard after the acceptance of the request. */
  lemma RequestedBeforeConfirmed(es: seq<Event>, target: real, r: Reply, j: nat) returns (i: nat)
    requires HeardAt(es, target, ConfirmReply(r), j)
    ensures i < j && HeardAt(es, target, RequestReply(Yes), i)
  {
    RunFits(es[..j], target);
    i :| HeardAt(es[..j], target, RequestReply(Yes), i);
    assert es[..j][..i] == es[..i];
  }

  /** Every event that can resolve the monitor, if it is the first, gives its own result: a
      crash before any trigger LOST, the safety timeout UNKNOWN, the end of the cash-out one
      of the two above; and no other event resolves it. */
  lemma FirstResolverDecides(es: seq<Event>, target: real, n: nat)
    requires n < |es| && Run(es[..n], target).resolved.None?
    ensures var s, t := Run(es[..n], target), Run(es[..n + 1], target);
            && (t.resolved.Some? <==>
                  || (es[n] == Crash && !s.triggered) || es[n] == SafetyTimeout || (es[n] == Deliver && s.exec.Ended?))
            && (t.resolved.Some? ==> Run(es, target).resolved == t.resolved)
            && (es[n] == Crash && !s.triggered ==> t.resolved == Some(LOST))
            && (es[n] == SafetyTimeout ==> t.resolved == Some(UNKNOWN))
  {
    assert es[..n + 1][..n] == es[..n];
    RunKeepsInv(es[..n], target);
    if Run(es[..n + 1], target).resolved.Some? { ResolvedOnce(es, target, n + 1); }
  }

  ghost predicate CouldTrigger(es: seq<Event>, target: real, k: nat) {
    && k < |es| && es[k].Tick? && es[k].multiplier >= target
    && Run(es[..k], target).resolved.None? && !Run(es[..k], target).aborted
  }

  /** Cash-out is requested if and only if some tick at the target comes while the monitor is
      neither resolved nor aborted. */
  lemma {:induction false} RequestedIff(es: seq<Event>, target: real)
    ensures Run(es, target).requests == 1 <==> exists k: nat :: CouldTrigger(es, target, k)
  {
    if es != [] {
      var p, e := es[..|es| - 1], es[|es| - 1];
      RequestedIff(p, target);
      RunKeepsInv(p, target);
      forall k: nat | k < |p| ensures CouldTrigger(p, target, k) <==> CouldTrigger(es, target, k) {
        assert p[..k] == es[..k];
      }
      if CouldTrigger(es, target, |p|) { assert Run(es, target).requests == 1; }
      if Run(es, target).requests == 1 && Run(p, target).requests == 0 { assert CouldTrigger(es, target, |p|); }
    }
  }
}
