/** `withTenantLock`: a promise-chain lock per user that removes its own map entry.

    JavaScript runs a call without interruption from one `await` to the next, so a
    call has three segments: `Enter` (up to `await prev`), `Resume` (after it) and
    `Leave` (the `finally` block, whether the body returned or threw). The promise
    `chained = prev.then(() => gate)` settles in a microtask of its own, `Settle`. */
module TenantLock {
  import opened Options

  type User = string

  datatype Phase = Waiting | Running | Done

  /** One call. `prev` names the call whose `chained` promise is awaited, None being
      an already resolved promise. The gate is open exactly in phase Done; `settled`
      says whether the call's own `chained` promise has resolved. */
  datatype Call = Call(user: User, prev: Option<nat>, phase: Phase, settled: bool)

  /** Calls are numbered in call order; `locks` is `lifecycleLocks`. */
  datatype State = State(calls: seq<Call>, locks: map<User, nat>)

  datatype Event = Enter(user: User) | Settle(call: nat) | Resume(call: nat) | Leave(call: nat, threw: bool)

  const INITIAL := State([], map[])

  predicate PrevSettled(s: State, c: nat)
    requires c < |s.calls|
  {
    match s.calls[c].prev
    case None => true
    case Some(p) => p < |s.calls| && s.calls[p].settled
  }

  predicate Enabled(s: State, e: Event) {
    match e
    case Enter(_) => true
    case Settle(c) => c < |s.calls| && s.calls[c].phase == Done && !s.calls[c].settled && PrevSettled(s, c)
    case Resume(c) => c < |s.calls| && s.calls[c].phase == Waiting && PrevSettled(s, c)
    case Leave(c, _) => c < |s.calls| && s.calls[c].phase == Running
  }

  function Lookup(locks: map<User, nat>, u: User): Option<nat> {
    if u in locks then Some(locks[u]) else None
  }

  /** One step; an event that is not enabled changes nothing. */
  function Step(s: State, e: Event): State {
    if !Enabled(s, e) then s else
      match e
      case Enter(u) =>
        State(s.calls + [Call(u, Lookup(s.locks, u), Waiting, false)], s.locks[u := |s.calls|])
      case Settle(c) => s.(calls := s.calls[c := s.calls[c].(settled := true)])
      case Resume(c) => s.(calls := s.calls[c := s.calls[c].(phase := Running)])
      case Leave(c, _) =>
        var u := s.calls[c].user;
        State(s.calls[c := s.calls[c].(phase := Done)],
              if Lookup(s.locks, u) == Some(c) then s.locks - {u} else s.locks)
  }

  function Run(es: seq<Event>): State {
    if es == [] then INITIAL else Step(Run(es[..|es| - 1]), es[|es| - 1])
  }

  // ----- the orchestrator object -----

  /** The orchestrator's `lifecycleLocks` with the promises its calls have created. */
  class Orchestrator {
    var lifecycleLocks: map<User, nat>
    var calls: seq<Call>

    ghost function Abstract(): State reads this {
      State(calls, lifecycleLocks)
    }

    constructor ()
      ensures Abstract() == INITIAL
    {
      lifecycleLocks, calls := map[], [];
    }

    /** Everything up to `await prev`. */
    method EnterLock(user: User) returns (chained: nat)
      modifies this
      ensures chained == |old(calls)|
      ensures Abstract() == Step(old(Abstract()), Enter(user))
    {
      var prev: Option<nat> := if user in lifecycleLocks then Some(lifecycleLocks[user]) else None;
      chained := |calls|;
      calls := calls + [Call(user, prev, Waiting, false)];
      lifecycleLocks := lifecycleLocks[user := chained];
    }

    /** The microtask that resolves `chained`. */
    method SettleChained(c: nat)
      requires Enabled(Abstract(), Settle(c))
      modifies this
      ensures Abstract() == Step(old(Abstract()), Settle(c))
    {
      calls := calls[c := calls[c].(settled := true)];
    }

    /** `await prev` has returned and the body starts. */
    method StartBody(c: nat)
      requires Enabled(Abstract(), Resume(c))
      modifies this
      ensures Abstract() == Step(old(Abstract()), Resume(c))
    {
      calls := calls[c := calls[c].(phase := Running)];
    }

    /** The `finally` block. */
    method LeaveLock(c: nat, threw: bool)
      requires Enabled(Abstract(), Leave(c, threw))
      modifies this
      ensures Abstract() == Step(old(Abstract()), Leave(c, threw))
    {
      var user := calls[c].user;
      calls := calls[c := calls[c].(phase := Done)];
      if user in lifecycleLocks && lifecycleLocks[user] == c {
        lifecycleLocks := lifecycleLocks - {user};
      }
    }
  }

  // ----- the invariant -----

  ghost predicate EarlierDone(s: State, c: nat)
    requires c < |s.calls|
  {
    forall d :: 0 <= d < c && s.calls[d].user == s.calls[c].user ==> s.calls[d].phase == Done
  }

  ghost predicate CallOk(s: State, c: nat)
    requires c < |s.calls|
  {
    var k := s.calls[c];
    && (k.phase != Waiting ==> EarlierDone(s, c) && PrevSettled(s, c))
    && (k.prev.None? ==> EarlierDone(s, c))
    && (k.prev.Some? ==>
          && k.prev.value < c && s.calls[k.prev.value].user == k.user
          && forall d :: k.prev.value < d < c ==> s.calls[d].user != k.user)
    && (k.settled ==> k.phase == Done)
  }

  /** The entry of a user is that user's last call, and it has not finished. */
  ghost predicate LockOk(s: State, u: User)
    requires u in s.locks
  {
    var l := s.locks[u];
    && l < |s.calls| && s.calls[l].user == u && s.calls[l].phase != Done
    && forall d :: l < d < |s.calls| ==> s.calls[d].user != u
  }

  ghost predicate Inv(s: State) {
    && (forall c :: 0 <= c < |s.calls| ==> CallOk(s, c))
    && (forall u :: u in s.locks ==> LockOk(s, u))
    && (forall c :: 0 <= c < |s.calls| && s.calls[c].user !in s.locks ==> s.calls[c].phase == Done)
  }

  lemma EnterKeepsInv(s: State, u: User)
    requires Inv(s)
    ensures Inv(Step(s, Enter(u)))
  {
    var t := Step(s, Enter(u));
    forall c | 0 <= c < |t.calls| ensures CallOk(t, c) {
      if c < |s.calls| { assert CallOk(s, c); }
    }
    forall v | v in t.locks ensures LockOk(t, v) {
      if v != u { assert LockOk(s, v); }
    }
  }

  /** What a step that only advances one call must guarantee. */
  ghost predicate Advances(s: State, t: State, k: nat) {
    && |t.calls| == |s.calls| && k < |s.calls|
    && (forall c :: 0 <= c < |s.calls| && c != k ==> t.calls[c] == s.calls[c])
    && t.calls[k].user == s.calls[k].user && t.calls[k].prev == s.calls[k].prev
    && (s.calls[k].settled ==> t.calls[k].settled)
    && (s.calls[k].phase == Done ==> t.calls[k].phase == Done)
  }

  lemma AdvanceKeepsCalls(s: State, t: State, k: nat)
    requires Inv(s) && Advances(s, t, k)
    requires t.calls[k].phase != Waiting ==> EarlierDone(s, k) && PrevSettled(s, k)
    requires t.calls[k].settled ==> t.calls[k].phase == Done
    ensures forall c :: 0 <= c < |t.calls| ==> CallOk(t, c)
  {
    forall c | 0 <= c < |t.calls| ensures CallOk(t, c) {
      assert CallOk(s, c);
      assert EarlierDone(s, c) ==> EarlierDone(t, c);
      assert PrevSettled(s, c) ==> PrevSettled(t, c);
    }
  }

  lemma StepKeepsInv(s: State, e: Event)
    requires Inv(s)
    ensures Inv(Step(s, e))
  {
    if Enabled(s, e) {
      if e.Enter? {
        EnterKeepsInv(s, e.user);
      } else {
        var t := Step(s, e);
        assert CallOk(s, e.call);
        if e.Resume? { ResumeHasNoEarlier(s, e.call); }
        AdvanceKeepsCalls(s, t, e.call);
        forall u | u in t.locks ensures LockOk(t, u) { assert LockOk(s, u); }
      }
    }
  }

  /** When the awaited promise has resolved, every earlier call of the user is over. */
  lemma ResumeHasNoEarlier(s: State, c: nat)
    requires Inv(s) && c < |s.calls| && PrevSettled(s, c)
    ensures EarlierDone(s, c)
  {
    assert CallOk(s, c);
    match s.calls[c].prev
    case None =>
    case Some(p) => assert CallOk(s, p);
  }

  lemma {:induction false} RunKeepsInv(es: seq<Event>)
    ensures Inv(Run(es))
  {
    if es != [] {
      RunKeepsInv(es[..|es| - 1]);
      StepKeepsInv(Run(es[..|es| - 1]), es[|es| - 1]);
    }
  }

  // ----- theorems over every run -----

  /** Two operations on one user never overlap. */
  lemma Exclusion(es: seq<Event>, c: nat, d: nat)
    requires c < |Run(es).calls| && d < |Run(es).calls|
    requires Run(es).calls[c].user == Run(es).calls[d].user
    requires Run(es).calls[c].phase == Running && Run(es).calls[d].phase == Running
    ensures c == d
  {
    RunKeepsInv(es);
    assert CallOk(Run(es), c) && CallOk(Run(es), d);
  }

  ghost predicate Pending(s: State, u: User, c: nat) {
    c < |s.calls| && s.calls[c].user == u && s.calls[c].phase != Done
  }

  /** The map holds an entry for a user exactly while an operation is queued or running. */
  lemma LockMapIsExact(es: seq<Event>, u: User)
    ensures u in Run(es).locks <==> exists c: nat :: Pending(Run(es), u, c)
  {
    var s := Run(es);
    RunKeepsInv(es);
    if u in s.locks {
      assert LockOk(s, u);
      assert Pending(s, u, s.locks[u]);
    }
  }

  lemma {:induction false} CallsPersist(es: seq<Event>, n: nat, c: nat)
    requires n <= |es| && c < |Run(es[..n]).calls|
    ensures c < |Run(es).calls|
    ensures Run(es).calls[c].user == Run(es[..n]).calls[c].user
    ensures Run(es[..n]).calls[c].phase != Waiting ==> Run(es).calls[c].phase != Waiting
  {
    if n < |es| {
      var es' := es[..|es| - 1];
      assert es'[..n] == es[..n];
      CallsPersist(es', n, c);
    } else {
      assert es[..n] == es;
    }
  }

  /** A call that was running and is over left in between. */
  lemma {:induction false} LeftInBetween(es: seq<Event>, n: nat, c: nat) returns (k: nat)
    requires n < |es| && c < |Run(es[..n]).calls| && Run(es[..n]).calls[c].phase == Running
    requires c < |Run(es).calls| && Run(es).calls[c].phase == Done
    ensures n <= k < |es| && es[k].Leave? && es[k].call == c && Enabled(Run(es[..k]), es[k])
  {
    k := |es| - 1;
    var es' := es[..k];
    assert es'[..n] == es[..n];
    CallsPersist(es', n, c);
    if n < k && Run(es').calls[c].phase == Done {
      k := LeftInBetween(es', n, c);
      assert es'[..k] == es[..k];
    }
  }

  /** Bodies of one user run in call order, each after the previous one has left. */
  lemma CallOrder(es: seq<Event>, i: nat, j: nat) returns (k: nat)
    requires i < j < |es| && es[i].Resume? && es[j].Resume?
    requires Enabled(Run(es[..i]), es[i]) && Enabled(Run(es[..j]), es[j])
    requires Run(es[..i]).calls[es[i].call].user == Run(es[..j]).calls[es[j].call].user
    ensures es[i].call < es[j].call
    ensures i < k < j && es[k].Leave? && es[k].call == es[i].call && Enabled(Run(es[..k]), es[k])
  {
    var c, d := es[i].call, es[j].call;
    var before := es[..j];
    var s := Run(before);
    assert before[..i + 1] == es[..i + 1] && es[..i + 1][..i] == es[..i];
    assert Run(es[..i + 1]) == Step(Run(es[..i]), es[i]);
    CallsPersist(before, i + 1, c);
    RunKeepsInv(before);
    assert CallOk(s, c);
    ResumeHasNoEarlier(s, d);
    assert c < d;
    k := LeftInBetween(before, i + 1, c);
    assert before[..k] == es[..k];
  }

  /** A body that ends, by a return or a throw, lets the next call of its user start. */
  lemma NextStartsAfterLeave(es: seq<Event>, c: nat, threw: bool, d: nat) returns (steps: seq<Event>)
    requires c < |Run(es).calls| && Run(es).calls[c].phase == Running
    requires d < |Run(es).calls| && Run(es).calls[d].phase == Waiting && Run(es).calls[d].user == Run(es).calls[c].user
    requires forall e :: 0 <= e < d && e != c && Run(es).calls[e].user == Run(es).calls[d].user ==>
               Run(es).calls[e].phase == Done
    ensures |steps| <= 2 && forall i :: 0 <= i < |steps| ==> steps[i].Settle? || steps[i].Resume?
    ensures Run(es + [Leave(c, threw)]).calls == Run(es).calls[c := Run(es).calls[c].(phase := Done)]
    ensures |Run(es + [Leave(c, threw)] + steps).calls| == |Run(es).calls|
    ensures Run(es + [Leave(c, threw)] + steps).calls[d].phase == Running
  {
    var leave := Leave(c, threw);
    assert (es + [leave])[..|es|] == es;
    assert Enabled(Run(es), leave);
    steps := FirstWaiterCanStart(es + [leave], d);
  }

  /** No deadlock: while operations of a user wait and none runs, the first of them can
      start at once or right after one promise settles. */
  lemma FirstWaiterCanStart(es: seq<Event>, c: nat) returns (steps: seq<Event>)
    requires c < |Run(es).calls| && Run(es).calls[c].phase == Waiting && EarlierDone(Run(es), c)
    ensures |steps| <= 2 && forall i :: 0 <= i < |steps| ==> steps[i].Settle? || steps[i].Resume?
    ensures |Run(es + steps).calls| == |Run(es).calls| && Run(es + steps).calls[c].phase == Running
  {
    var s := Run(es);
    RunKeepsInv(es);
    assert CallOk(s, c);
    steps := [Resume(c)];
    if !PrevSettled(s, c) {
      var p := s.calls[c].prev.value;
      assert CallOk(s, p);
      var settle := Settle(p);
      assert Enabled(s, settle);
      var t := Step(s, settle);
      assert (es + [settle])[..|es|] == es;
      assert Run(es + [settle]) == t && Enabled(t, Resume(c));
      steps := [settle, Resume(c)];
      assert (es + steps)[..|es + steps| - 1] == es + [settle];
    } else {
      assert (es + steps)[..|es|] == es;
    }
  }
}
