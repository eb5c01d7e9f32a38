/** What each result of a placement goes back to: which answers of the adapter took effect. */
module BetHistory {
  import opened BetExecution

  /** The event happens to a call that is there and waits for it. */
  predicate TakesEffect(s: State, e: Event) {
    match e
    case Submit(c, _) => c < |s.calls| && s.calls[c].pc.Submitting?
    case Confirm(c, _) => c < |s.calls| && s.calls[c].pc.Confirming?
    case _ => true
  }

  ghost predicate DidAt(es: seq<Event>, max: nat, e: Event, k: nat) {
    k < |es| && es[k] == e && TakesEffect(Run(es[..k], max), e)
  }

  /** The event took effect somewhere in the run. */
  ghost predicate Did(es: seq<Event>, max: nat, e: Event) {
    exists k: nat :: DidAt(es, max, e, k)
  }

  lemma DidSnoc(es: seq<Event>, next: Event, max: nat, e: Event)
    ensures Did(es + [next], max, e) <==> Did(es, max, e) || (next == e && TakesEffect(Run(es, max), e))
  {
    var fs := es + [next];
    assert fs[..|es|] == es;
    if Did(es, max, e) {
      var k: nat :| DidAt(es, max, e, k);
      assert fs[..k] == es[..k];
      assert DidAt(fs, max, e, k);
    }
    if next == e && TakesEffect(Run(es, max), e) { assert DidAt(fs, max, e, |es|); }
    if Did(fs, max, e) {
      var k: nat :| DidAt(fs, max, e, k);
      if k < |es| {
        assert fs[..k] == es[..k];
        assert DidAt(es, max, e, k);
      }
    }
  }

  /** What a call has heard from its adapter, throws of `submitBet` apart. */
  datatype Heard = Heard(accepted: bool, rejected: bool, yes: bool, no: bool)

  const NOTHING := Heard(false, false, false, false)
  const REJECTED := Heard(false, true, false, false)
  const ACCEPTED := Heard(true, false, false, false)
  const CONFIRMED_YES := Heard(true, false, true, false)
  const CONFIRMED_NOT := Heard(true, false, false, true)

  ghost function HeardBy(es: seq<Event>, max: nat, c: nat): Heard {
    Heard(Did(es, max, Submit(c, Accepted)), Did(es, max, Submit(c, Rejected)), Did(es, max, Confirm(c, Yes)),
          Did(es, max, Confirm(c, No)) || Did(es, max, Confirm(c, ThrewOrTimedOut)))
  }

  lemma HeardSnoc(es: seq<Event>, e: Event, max: nat, c: nat)
    ensures var h, t, now := HeardBy(es, max, c), HeardBy(es + [e], max, c), TakesEffect(Run(es, max), e);
            && (t.accepted <==> h.accepted || (now && e == Submit(c, Accepted)))
            && (t.rejected <==> h.rejected || (now && e == Submit(c, Rejected)))
            && (t.yes <==> h.yes || (now && e == Confirm(c, Yes)))
            && (t.no <==> h.no || (now && (e == Confirm(c, No) || e == Confirm(c, ThrewOrTimedOut))))
  {
    DidSnoc(es, e, max, Submit(c, Accepted));
    DidSnoc(es, e, max, Submit(c, Rejected));
    DidSnoc(es, e, max, Confirm(c, Yes));
    DidSnoc(es, e, max, Confirm(c, No));
    DidSnoc(es, e, max, Confirm(c, ThrewOrTimedOut));
  }

  /** What a call at each point has heard. */
  predicate Fits(k: Call, h: Heard) {
    match k.pc
    case Queued => h == NOTHING
    case Reserving => h == NOTHING
    case Submitting(_) => h == NOTHING && !k.request.dryRun
    case Confirming(_) => h == ACCEPTED && !k.request.dryRun
    case Writing(r) => ResultFits(k.request, r, h)
    case Returned(r, owner) => if owner then ResultFits(k.request, r, h) else h == NOTHING
  }

  predicate ResultFits(q: Request, r: Result, h: Heard) {
    if q.dryRun then r == Result(true, CONFIRMED, 0) && h == NOTHING
    else match r.verdict
      case CONFIRMED => r.placed && h == CONFIRMED_YES
      case UNKNOWN => !r.placed && (h == REJECTED || h == CONFIRMED_NOT)
      case FAILED => !r.placed && h == NOTHING
  }

  ghost predicate AllFit(es: seq<Event>, max: nat) {
    var s := Run(es, max);
    && (forall c :: 0 <= c < |s.calls| ==> Fits(s.calls[c], HeardBy(es, max, c)))
    && (forall c: nat :: c >= |s.calls| ==> HeardBy(es, max, c) == NOTHING)
  }

  lemma LeaveOthers(s: State, c: nat, r: Result, owner: bool, d: nat)
    requires MutexInv(s) && c < |s.calls| && Inside(s.calls[c]) && d < |s.calls| && d != c
    ensures d < |Leave(s, c, r, owner).calls|
    ensures var k, l := s.calls[d], Leave(s, c, r, owner).calls[d];
            l == k || (k.pc == Queued && l == k.(pc := Reserving))
  {
    var m := MutexOf(s, s.calls[c].executor);
    if m.queue != [] { assert WaitsAt(s, s.calls[c].executor, 0); }
  }

  /** The step concerns call c: it is an answer to it, or its reservation or final write. */
  predicate Concerns(e: Event, c: nat) {
    !e.Place? && e.call == c
  }

  /** A step that concerns another call at most lets this one past the mutex. */
  lemma OtherCallStep(s: State, e: Event, max: nat, c: nat)
    requires MutexInv(s) && c < |s.calls| && !Concerns(e, c)
    ensures c < |Step(s, e, max).calls|
    ensures var k, l := s.calls[c], Step(s, e, max).calls[c];
            l == k || (k.pc == Queued && l == k.(pc := Reserving))
  {
    if e.Reserve? && e.call < |s.calls| && s.calls[e.call].pc == Reserving {
      LeaveOthers(s, e.call, DUPLICATE, false, c);
    }
    if e.Finish? && e.call < |s.calls| && s.calls[e.call].pc.Writing? {
      LeaveOthers(s, e.call, s.calls[e.call].pc.result, true, c);
    }
  }

  lemma ReserveCallStep(s: State, max: nat, c: nat)
    requires MutexInv(s) && c < |s.calls| && s.calls[c].pc == Reserving
    ensures c < |Step(s, Reserve(c), max).calls|
    ensures var k, l := s.calls[c], Step(s, Reserve(c), max).calls[c];
            && l.request == k.request
            && (l.pc == Returned(DUPLICATE, false)
                || l.pc == if k.request.dryRun then Writing(Result(true, CONFIRMED, 0)) else Submitting(0))
  {
    if KeyOf(s.calls[c].request) in s.store { LeaveMoves(s, c, DUPLICATE, false); }
  }

  lemma FinishCallStep(s: State, max: nat, c: nat)
    requires MutexInv(s) && c < |s.calls| && s.calls[c].pc.Writing?
    ensures c < |Step(s, Finish(c), max).calls|
    ensures var k, l := s.calls[c], Step(s, Finish(c), max).calls[c];
            l.request == k.request && l.pc == Returned(k.pc.result, true)
  {
    LeaveMoves(s, c, s.calls[c].pc.result, true);
  }

  /** One step keeps what a call has heard in line with where it stands. */
  lemma StepKeepsFit(s: State, e: Event, max: nat, c: nat, h: Heard, t: Heard)
    requires MutexInv(s) && c < |s.calls| && Fits(s.calls[c], h)
    requires var now := TakesEffect(s, e);
             && (t.accepted <==> h.accepted || (now && e == Submit(c, Accepted)))
             && (t.rejected <==> h.rejected || (now && e == Submit(c, Rejected)))
             && (t.yes <==> h.yes || (now && e == Confirm(c, Yes)))
             && (t.no <==> h.no || (now && (e == Confirm(c, No) || e == Confirm(c, ThrewOrTimedOut))))
    ensures c < |Step(s, e, max).calls| && Fits(Step(s, e, max).calls[c], t)
  {
    if !Concerns(e, c) {
      OtherCallStep(s, e, max, c);
      assert t == h;
    } else {
      match e
      case Reserve(_) =>
        assert t == h;
        if s.calls[c].pc == Reserving { ReserveCallStep(s, max, c); }
      case Finish(_) =>
        assert t == h;
        if s.calls[c].pc.Writing? { FinishCallStep(s, max, c); }
      case Submit(_, a) =>
      case Confirm(_, a) =>
    }
  }

  lemma NewCall(s: State, e: Event, max: nat)
    ensures |s.calls| <= |Step(s, e, max).calls| <= |s.calls| + 1
    ensures |Step(s, e, max).calls| > |s.calls| ==>
              var k := Step(s, e, max).calls[|s.calls|];
              e.Place? && (k.pc == Queued || k.pc == Reserving)
  {
  }

  lemma {:induction false} RunFits(es: seq<Event>, max: nat)
    ensures AllFit(es, max)
  {
    if es == [] {
      forall c: nat ensures HeardBy(es, max, c) == NOTHING {}
    } else {
      var p, e := es[..|es| - 1], es[|es| - 1];
      var s, t := Run(p, max), Run(es, max);
      assert es == p + [e];
      RunFits(p, max);
      RunKeepsInv(p, max);
      NewCall(s, e, max);
      forall c: nat ensures c < |t.calls| ==> Fits(t.calls[c], HeardBy(es, max, c))
        ensures c >= |t.calls| ==> HeardBy(es, max, c) == NOTHING
      {
        HeardSnoc(p, e, max, c);
        if c < |s.calls| { StepKeepsFit(s, e, max, c, HeardBy(p, max, c), HeardBy(es, max, c)); }
      }
    }
  }

  // ----- theorems over every run and every adapter -----

  /** What a returned live bet that held its key reports, and the store says, goes back to the
      adapter's answers: placed, confirmed and COMPLETED if and only if a submission was
      accepted and the confirmation was yes; UNKNOWN if and only if one was rejected, or
      accepted and not confirmed; FAILED if and only if every submission threw. */
  lemma OutcomeIff(es: seq<Event>, max: nat, c: nat)
    requires c < |Run(es, max).calls| && Run(es, max).calls[c].pc.Returned? && Run(es, max).calls[c].pc.owner
    requires !Run(es, max).calls[c].request.dryRun
    ensures var s, k := Run(es, max), Run(es, max).calls[c];
            var key, r := KeyOf(k.request), k.pc.result;
            var accepted, rejected := Did(es, max, Submit(c, Accepted)), Did(es, max, Submit(c, Rejected));
            var yes := Did(es, max, Confirm(c, Yes));
            var no := Did(es, max, Confirm(c, No)) || Did(es, max, Confirm(c, ThrewOrTimedOut));
            && key in s.store
            && (r.placed <==> accepted && yes)
            && (r.placed <==> r.verdict == CONFIRMED) && (r.placed <==> s.store[key] == Completed)
            && (r.verdict == UNKNOWN <==> rejected || (accepted && no))
            && (r.verdict == UNKNOWN <==> s.store[key] == Status.Unknown)
            && (r.verdict == Verdict.FAILED <==> !accepted && !rejected)
            && (r.verdict == Verdict.FAILED <==> s.store[key] == Status.Failed)
  {
    RunFits(es, max);
    RunKeepsInv(es, max);
    assert Fits(Run(es, max).calls[c], HeardBy(es, max, c));
    assert OwnerOk(Run(es, max), Run(es, max).calls[c]);
  }

  /** The confirmation is heard after the acceptance. */
  lemma AcceptedBeforeConfirmed(es: seq<Event>, max: nat, c: nat, a: ConfirmAnswer, j: nat) returns (i: nat)
    requires DidAt(es, max, Confirm(c, a), j)
    ensures i < j && DidAt(es, max, Submit(c, Accepted), i)
  {
    var p := es[..j];
    RunFits(p, max);
    assert Fits(Run(p, max).calls[c], HeardBy(p, max, c));
    i :| DidAt(p, max, Submit(c, Accepted), i);
    assert p[..i] == es[..i];
  }

  /** A duplicate has heard nothing and is refused; a dry run has heard nothing and is
      reported placed. */
  lemma OthersHearNothing(es: seq<Event>, max: nat, c: nat)
    requires c < |Run(es, max).calls| && Run(es, max).calls[c].pc.Returned?
    requires !Run(es, max).calls[c].pc.owner || Run(es, max).calls[c].request.dryRun
    ensures HeardBy(es, max, c) == NOTHING
    ensures var pc := Run(es, max).calls[c].pc;
            if pc.owner then pc.result == Result(true, CONFIRMED, 0)
            else pc.result == Result(false, Verdict.FAILED, 0)
  {
    RunFits(es, max);
    RunKeepsInv(es, max);
    assert Fits(Run(es, max).calls[c], HeardBy(es, max, c));
  }

  // ----- who holds a key, and who a mutex -----

  ghost predicate OwnsKey(s: State, c: nat, key: Key) {
    c < |s.calls| && Owner(s.calls[c]) && KeyOf(s.calls[c].request) == key
  }

  ghost predicate KeysOwned(s: State) {
    && (forall key :: key in s.store ==> exists c: nat :: OwnsKey(s, c, key))
    && (forall d :: 0 <= d < |s.calls| && s.calls[d].pc.Returned? ==> KeyOf(s.calls[d].request) in s.store)
  }

  lemma OwnerStays(s: State, e: Event, max: nat, c: nat, key: Key)
    requires MutexInv(s) && OwnsKey(s, c, key)
    ensures OwnsKey(Step(s, e, max), c, key)
  {
    if !Concerns(e, c) { OtherCallStep(s, e, max, c); }
    else if e.Finish? && s.calls[c].pc.Writing? { FinishCallStep(s, max, c); }
  }

  lemma NewKeyHasOwner(s: State, e: Event, max: nat, key: Key)
    requires key in Step(s, e, max).store && key !in s.store
    ensures e.Reserve? && OwnsKey(Step(s, e, max), e.call, key)
  {
  }

  lemma KeysStay(s: State, e: Event, max: nat)
    ensures forall key :: key in s.store ==> key in Step(s, e, max).store
  {
  }

  lemma ReturnedHasKey(s: State, e: Event, max: nat, d: nat)
    requires KeyInv(s) && MutexInv(s) && KeysOwned(s)
    requires d < |Step(s, e, max).calls| && Step(s, e, max).calls[d].pc.Returned?
    ensures KeyOf(Step(s, e, max).calls[d].request) in Step(s, e, max).store
  {
    NewCall(s, e, max);
    KeysStay(s, e, max);
    if d < |s.calls| && !Concerns(e, d) { OtherCallStep(s, e, max, d); }
    if d < |s.calls| && e == Reserve(d) && s.calls[d].pc == Reserving { ReserveCallStep(s, max, d); }
    if d < |s.calls| && e == Finish(d) && s.calls[d].pc.Writing? {
      FinishCallStep(s, max, d);
      assert OwnerOk(s, s.calls[d]);
    }
  }

  lemma {:induction false} RunKeepsKeysOwned(es: seq<Event>, max: nat)
    ensures KeysOwned(Run(es, max))
  {
    if es != [] {
      var s, e := Run(es[..|es| - 1], max), es[|es| - 1];
      RunKeepsKeysOwned(es[..|es| - 1], max);
      RunKeepsInv(es[..|es| - 1], max);
      forall key | key in Step(s, e, max).store ensures exists c: nat :: OwnsKey(Step(s, e, max), c, key) {
        if key in s.store {
          var c: nat :| OwnsKey(s, c, key);
          OwnerStays(s, e, max, c, key);
        } else {
          NewKeyHasOwner(s, e, max, key);
        }
      }
      forall d | 0 <= d < |Step(s, e, max).calls| && Step(s, e, max).calls[d].pc.Returned?
        ensures KeyOf(Step(s, e, max).calls[d].request) in Step(s, e, max).store
      {
        ReturnedHasKey(s, e, max, d);
      }
    }
  }

  /** In every run a key is in the store exactly while one call holds it, so a call is
      refused as a duplicate only when another one has its key. */
  lemma DuplicatesHaveOwner(es: seq<Event>, max: nat, key: Key)
    ensures key in Run(es, max).store <==> exists c: nat :: OwnsKey(Run(es, max), c, key)
    ensures forall d :: 0 <= d < |Run(es, max).calls| && Run(es, max).calls[d].pc.Returned? ==>
              KeyOf(Run(es, max).calls[d].request) in Run(es, max).store
  {
    RunKeepsKeysOwned(es, max);
    RunKeepsInv(es, max);
    var s := Run(es, max);
    forall c: nat | OwnsKey(s, c, key) ensures key in s.store { assert OwnerOk(s, s.calls[c]); }
  }

  ghost predicate UnderWay(s: State, x: nat, c: nat) {
    c < |s.calls| && s.calls[c].executor == x && Inside(s.calls[c])
  }

  ghost predicate LocksHaveCalls(s: State) {
    forall x :: MutexOf(s, x).locked ==> exists c: nat :: UnderWay(s, x, c)
  }

  lemma LeaveHandsOn(s: State, c: nat, r: Result, owner: bool, x: nat)
    requires MutexInv(s) && LocksHaveCalls(s) && c < |s.calls| && Inside(s.calls[c])
    requires MutexOf(Leave(s, c, r, owner), x).locked
    ensures exists d: nat :: UnderWay(Leave(s, c, r, owner), x, d)
  {
    var t, e := Leave(s, c, r, owner), s.calls[c].executor;
    if MutexOf(s, e).queue != [] { assert WaitsAt(s, e, 0); }
    if x == e {
      assert UnderWay(t, x, MutexOf(s, e).queue[0]);
    } else {
      assert MutexOf(s, x).locked;
      var d: nat :| UnderWay(s, x, d);
      assert UnderWay(t, x, d);
    }
  }

  lemma PlaceIsUnderWay(s: State, e: nat, q: Request, x: nat)
    requires LocksHaveCalls(s) && MutexOf(PlaceStep(s, e, q), x).locked
    ensures exists d: nat :: UnderWay(PlaceStep(s, e, q), x, d)
  {
    if MutexOf(s, x).locked {
      var d: nat :| UnderWay(s, x, d);
      assert UnderWay(PlaceStep(s, e, q), x, d);
    } else {
      assert UnderWay(PlaceStep(s, e, q), x, |s.calls|);
    }
  }

  lemma StepKeepsLocksHaveCalls(s: State, e: Event, max: nat, x: nat)
    requires MutexInv(s) && LocksHaveCalls(s) && MutexOf(Step(s, e, max), x).locked
    ensures exists d: nat :: UnderWay(Step(s, e, max), x, d)
  {
    var t := Step(s, e, max);
    if e.Place? {
      PlaceIsUnderWay(s, e.executor, e.request, x);
    } else if e.Reserve? && t != s && KeyOf(s.calls[e.call].request) in s.store {
      LeaveHandsOn(s, e.call, DUPLICATE, false, x);
    } else if e.Finish? && t != s {
      LeaveHandsOn(s, e.call, s.calls[e.call].pc.result, true, x);
      var d: nat :| UnderWay(Leave(s, e.call, s.calls[e.call].pc.result, true), x, d);
      assert UnderWay(t, x, d);
    } else {
      assert t.mutexes == s.mutexes && MutexOf(s, x).locked;
      var d: nat :| UnderWay(s, x, d);
      assert UnderWay(t, x, d);
    }
  }

  lemma {:induction false} RunKeepsLocksHaveCalls(es: seq<Event>, max: nat)
    ensures LocksHaveCalls(Run(es, max))
  {
    if es != [] {
      var s, e := Run(es[..|es| - 1], max), es[|es| - 1];
      RunKeepsLocksHaveCalls(es[..|es| - 1], max);
      RunKeepsInv(es[..|es| - 1], max);
      forall x | MutexOf(Step(s, e, max), x).locked ensures exists d: nat :: UnderWay(Step(s, e, max), x, d) {
        StepKeepsLocksHaveCalls(s, e, max, x);
      }
    }
  }

  /** In every run an executor's mutex is locked exactly while one of its calls is under way,
      and a call waits only behind an earlier one that is: no call waits for a free mutex. */
  lemma LockedIffUnderWay(es: seq<Event>, max: nat, x: nat)
    ensures MutexOf(Run(es, max), x).locked <==> exists c: nat :: UnderWay(Run(es, max), x, c)
    ensures var s := Run(es, max);
            forall d :: 0 <= d < |s.calls| && s.calls[d].executor == x && s.calls[d].pc == Queued ==>
              exists c: nat :: c < d && UnderWay(s, x, c)
  {
    var s := Run(es, max);
    RunKeepsInv(es, max);
    RunKeepsLocksHaveCalls(es, max);
    FirstCalledFirstServed(es, max);
    assert ShapeOk(MutexOf(s, x));
    forall d | 0 <= d < |s.calls| && s.calls[d].executor == x && s.calls[d].pc == Queued
      ensures exists c: nat :: c < d && UnderWay(s, x, c)
    {
      assert d in MutexOf(s, x).queue;
      var c: nat :| UnderWay(s, x, c);
      assert c < d;
    }
  }

  /** Left alone, a dry run whose key is free returns what the sequential method computes. */
  lemma DryRunAloneIsOutcome(s: State, c: nat, max: nat, answers: seq<SubmitAnswer>, confirm: ConfirmAnswer)
    requires MutexInv(s) && c < |s.calls| && s.calls[c].pc == Reserving && s.calls[c].request.dryRun
    requires KeyOf(s.calls[c].request) !in s.store && |answers| > max
    ensures var t := Step(Step(s, Reserve(c), max), Finish(c), max);
            c < |t.calls| && t.calls[c].pc == Returned(Outcome(true, max, answers, confirm), true)
  {
    StepKeepsMutexes(s, Reserve(c), max);
    FinishCallStep(Step(s, Reserve(c), max), max, c);
  }
}
