/** `BetExecutor.placeBet` on the in-memory idempotency store, for any adapter.

    Several executors may share one store. Each executor has its own FIFO mutex. A call is
    split at its awaits: entering, the reservation, each `submitBet`, the confirmation and
    the final write to the store. Keys are never released or cleaned up. */
module BetExecution {
  type Key = string

  datatype Request = Request(session: string, round: string, dryRun: bool)

  function GenerateKey(session: string, round: string): Key { session + ":" + round }
  function KeyOf(q: Request): Key { GenerateKey(q.session, q.round) }

  /** A key does not tell all sessions apart: two sessions can meet in one key, for some
      pair of rounds, if and only if one with its colon begins the other with its colon. */
  lemma KeysMeetIff(s1: string, s2: string)
    ensures (exists r1, r2 :: GenerateKey(s1, r1) == GenerateKey(s2, r2))
            <==> s1 + ":" <= s2 + ":" || s2 + ":" <= s1 + ":"
  {
    var p1, p2 := s1 + ":", s2 + ":";
    if p1 <= p2 {
      assert p1 + p2[|p1|..] == p2 + "";
      assert GenerateKey(s1, p2[|p1|..]) == GenerateKey(s2, "");
    }
    if p2 <= p1 {
      assert p2 + p1[|p2|..] == p1 + "";
      assert GenerateKey(s1, "") == GenerateKey(s2, p1[|p2|..]);
    }
    forall r1, r2 | GenerateKey(s1, r1) == GenerateKey(s2, r2) ensures p1 <= p2 || p2 <= p1 {
      var k := p1 + r1;
      assert k == p2 + r2 && p1 == k[..|p1|] && p2 == k[..|p2|];
    }
  }

  /** Within one session, and between sessions without colons, keys tell rounds apart. */
  lemma KeysTellRoundsApart(s1: string, r1: string, s2: string, r2: string)
    requires GenerateKey(s1, r1) == GenerateKey(s2, r2)
    requires s1 == s2 || (':' !in s1 && ':' !in s2)
    ensures s1 == s2 && r1 == r2
  {
    var k := GenerateKey(s1, r1);
    assert k[..|s1|] == s1 && k[|s1|] == ':' && k[|s1| + 1..] == r1;
    assert k[..|s2|] == s2 && k[|s2|] == ':' && k[|s2| + 1..] == r2;
  }

  datatype Status = Pending | Completed | Failed | Unknown

  /** The answer of `submitBet`, and that of the confirmation wait, where a timeout throws. */
  datatype SubmitAnswer = Accepted | Rejected | Threw
  datatype ConfirmAnswer = Yes | No | ThrewOrTimedOut

  datatype Verdict = CONFIRMED | FAILED | UNKNOWN
  datatype Result = Result(placed: bool, verdict: Verdict, retryCount: nat)

  const DUPLICATE := Result(false, FAILED, 0)

  // ----- the store and the executor as objects -----

  class InMemoryIdempotencyStore {
    var store: map<Key, Status>

    constructor ()
      ensures store == map[]
    {
      store := map[];
    }

    method ReserveKey(key: Key) returns (ok: bool)
      modifies this
      ensures ok <==> key !in old(store)
      ensures store == if ok then old(store)[key := Pending] else old(store)
    {
      if key in store { return false; }
      store := store[key := Pending];
      return true;
    }

    /** `complete`, `fail` and `markUnknown`: each changes a record only if it exists. */
    method Mark(key: Key, status: Status)
      modifies this
      ensures store == if key in old(store) then old(store)[key := status] else old(store)
    {
      if key in store { store := store[key := status]; }
    }
  }

  /** The first attempt whose submission did not throw, or max + 1. */
  function FirstReturn(answers: seq<SubmitAnswer>, from: nat, max: nat): (i: nat)
    requires |answers| > max && from <= max + 1
    ensures from <= i <= max + 1
    ensures i <= max ==> answers[i] != Threw
    ensures forall j :: from <= j < i ==> answers[j] == Threw
    decreases max + 1 - from
  {
    if from == max + 1 || answers[from] != Threw then from else FirstReturn(answers, from + 1, max)
  }

  /** What a call that got the key reports, given the adapter's answer to each attempt. */
  function Outcome(dryRun: bool, max: nat, answers: seq<SubmitAnswer>, confirm: ConfirmAnswer): Result
    requires |answers| > max
  {
    var i := FirstReturn(answers, 0, max);
    if dryRun then Result(true, CONFIRMED, 0)
    else if i > max then Result(false, FAILED, max)
    else if answers[i] == Accepted && confirm == Yes then Result(true, CONFIRMED, i)
    else Result(false, UNKNOWN, i)
  }

  function Matching(v: Verdict): Status {
    match v
    case CONFIRMED => Completed
    case FAILED => Failed
    case UNKNOWN => Unknown
  }

  class BetExecutor {
    const idempotency: InMemoryIdempotencyStore
    const maxPlacementRetries: nat

    constructor (idempotency: InMemoryIdempotencyStore, maxPlacementRetries: nat)
      ensures this.idempotency == idempotency && this.maxPlacementRetries == maxPlacementRetries
    {
      this.idempotency, this.maxPlacementRetries := idempotency, maxPlacementRetries;
    }

    /** `placeBet` undisturbed: `answers` and `confirm` are what the adapter will say. */
    method PlaceAlone(request: Request, answers: seq<SubmitAnswer>, confirm: ConfirmAnswer) returns (r: Result)
      requires |answers| > maxPlacementRetries
      modifies idempotency
      ensures KeyOf(request) in old(idempotency.store) ==>
                r == DUPLICATE && idempotency.store == old(idempotency.store)
      ensures KeyOf(request) !in old(idempotency.store) ==>
                && r == Outcome(request.dryRun, maxPlacementRetries, answers, confirm)
                && idempotency.store == old(idempotency.store)[KeyOf(request) := Matching(r.verdict)]
    {
      var key := KeyOf(request);
      var reserved := idempotency.ReserveKey(key);
      if !reserved { return DUPLICATE; }
      if request.dryRun {
        idempotency.Mark(key, Completed);
        return Result(true, CONFIRMED, 0);
      }
      var retryCount, attempt := 0, 0;
      var externalSideEffectAttempted, confirmed := false, false;
      while attempt <= maxPlacementRetries
        invariant attempt <= maxPlacementRetries + 1
        invariant !externalSideEffectAttempted && !confirmed
        invariant FirstReturn(answers, 0, maxPlacementRetries) == FirstReturn(answers, attempt, maxPlacementRetries)
        invariant retryCount == if attempt == 0 then 0 else attempt - 1
        invariant idempotency.store == old(idempotency.store)[key := Pending]
      {
        if attempt > 0 { retryCount := attempt; }
        if answers[attempt] != Threw {
          externalSideEffectAttempted := true;
          confirmed := answers[attempt] == Accepted && confirm == Yes;
          break;
        }
        attempt := attempt + 1;
      }
      if confirmed {
        idempotency.Mark(key, Completed);
        return Result(true, CONFIRMED, retryCount);
      }
      if externalSideEffectAttempted {
        idempotency.Mark(key, Unknown);
        return Result(false, UNKNOWN, retryCount);
      }
      idempotency.Mark(key, Failed);
      return Result(false, FAILED, retryCount);
    }
  }

  // ----- concurrent calls -----

  datatype Pc =
    | Queued
    | Reserving
    | Submitting(attempt: nat)
    | Confirming(attempt: nat)
    | Writing(result: Result)
    | Returned(result: Result, owner: bool)

  datatype Call = Call(executor: nat, request: Request, pc: Pc)

  /** The mutex of `utils/async`: a flag and the queue of waiting calls. */
  datatype Mutex = Mutex(locked: bool, queue: seq<nat>)

  /** A finished call of `submitBet`; `normal` says that it did not throw. */
  datatype Submission = Submission(key: Key, normal: bool)

  datatype State = State(calls: seq<Call>, mutexes: map<nat, Mutex>, store: map<Key, Status>, log: seq<Submission>)

  datatype Event =
    | Place(executor: nat, request: Request)
    | Reserve(call: nat)
    | Submit(call: nat, answer: SubmitAnswer)
    | Confirm(call: nat, confirm: ConfirmAnswer)
    | Finish(call: nat)

  const INITIAL := State([], map[], map[], [])

  function MutexOf(s: State, e: nat): Mutex {
    if e in s.mutexes then s.mutexes[e] else Mutex(false, [])
  }

  function SetPc(s: State, c: nat, pc: Pc): State
    requires c < |s.calls|
  {
    s.(calls := s.calls[c := s.calls[c].(pc := pc)])
  }

  function PlaceStep(s: State, e: nat, q: Request): State {
    var m, c := MutexOf(s, e), |s.calls|;
    if m.locked
    then s.(calls := s.calls + [Call(e, q, Queued)], mutexes := s.mutexes[e := m.(queue := m.queue + [c])])
    else s.(calls := s.calls + [Call(e, q, Reserving)], mutexes := s.mutexes[e := Mutex(true, m.queue)])
  }

  /** The call returns and the `finally` block hands its mutex on. */
  function Leave(s: State, c: nat, r: Result, owner: bool): State
    requires c < |s.calls|
  {
    var t := SetPc(s, c, Returned(r, owner));
    var e := s.calls[c].executor;
    var m := MutexOf(s, e);
    if m.queue == [] then t.(mutexes := s.mutexes[e := Mutex(false, [])])
    else if m.queue[0] < |s.calls|
    then SetPc(t, m.queue[0], Reserving).(mutexes := s.mutexes[e := m.(queue := m.queue[1..])])
    else t
  }

  function ReserveStep(s: State, c: nat): State
    requires c < |s.calls|
  {
    var q := s.calls[c].request;
    if KeyOf(q) in s.store then Leave(s, c, DUPLICATE, false)
    else
      var next := if q.dryRun then Writing(Result(true, CONFIRMED, 0)) else Submitting(0);
      SetPc(s, c, next).(store := s.store[KeyOf(q) := Pending])
  }

  function SubmitStep(s: State, c: nat, a: SubmitAnswer, max: nat): State
    requires c < |s.calls| && s.calls[c].pc.Submitting?
  {
    var n := s.calls[c].pc.attempt;
    var next := match a
                case Accepted => Confirming(n)
                case Rejected => Writing(Result(false, UNKNOWN, n))
                case Threw => if n < max then Submitting(n + 1) else Writing(Result(false, FAILED, n));
    SetPc(s, c, next).(log := s.log + [Submission(KeyOf(s.calls[c].request), a != Threw)])
  }

  function FinishStep(s: State, c: nat): State
    requires c < |s.calls| && s.calls[c].pc.Writing?
  {
    var key, r := KeyOf(s.calls[c].request), s.calls[c].pc.result;
    var t := Leave(s, c, r, true);
    if key in s.store then t.(store := s.store[key := Matching(r.verdict)]) else t
  }

  function Step(s: State, e: Event, max: nat): State {
    match e
    case Place(x, q) => PlaceStep(s, x, q)
    case Reserve(c) => if c < |s.calls| && s.calls[c].pc == Reserving then ReserveStep(s, c) else s
    case Submit(c, a) => if c < |s.calls| && s.calls[c].pc.Submitting? then SubmitStep(s, c, a, max) else s
    case Confirm(c, a) =>
      if c < |s.calls| && s.calls[c].pc.Confirming? then
        var n := s.calls[c].pc.attempt;
        SetPc(s, c, Writing(if a == Yes then Result(true, CONFIRMED, n) else Result(false, UNKNOWN, n)))
      else s
    case Finish(c) => if c < |s.calls| && s.calls[c].pc.Writing? then FinishStep(s, c) else s
  }

  function Run(es: seq<Event>, max: nat): State {
    if es == [] then INITIAL else Step(Run(es[..|es| - 1], max), es[|es| - 1], max)
  }

  // ----- keys -----

  /** The call holds the reservation of its key. */
  predicate Owner(k: Call) {
    k.pc.Submitting? || k.pc.Confirming? || k.pc.Writing? || (k.pc.Returned? && k.pc.owner)
  }

  predicate SubmittedNormally(log: seq<Submission>, key: Key) {
    exists i :: 0 <= i < |log| && log[i] == Submission(key, true)
  }

  /** What the store and the log say of an owner's key at each point of the call. */
  ghost predicate OwnerOk(s: State, k: Call) {
    var key := KeyOf(k.request);
    && key in s.store
    && match k.pc
       case Submitting(_) => s.store[key] == Pending && !SubmittedNormally(s.log, key) && !k.request.dryRun
       case Confirming(_) => s.store[key] == Pending && SubmittedNormally(s.log, key) && !k.request.dryRun
       case Writing(r) => s.store[key] == Pending && ResultOk(s, k.request, r)
       case Returned(r, _) => s.store[key] == Matching(r.verdict) && ResultOk(s, k.request, r)
       case _ => true
  }

  /** Placed exactly when confirmed; FAILED exactly when no submission returned normally. */
  ghost predicate ResultOk(s: State, q: Request, r: Result) {
    && (r.placed <==> r.verdict == CONFIRMED)
    && if q.dryRun then r.placed && !SubmittedNormally(s.log, KeyOf(q))
       else (r.verdict == FAILED <==> !SubmittedNormally(s.log, KeyOf(q)))
  }

  ghost predicate KeyInv(s: State) {
    && (forall c :: 0 <= c < |s.calls| && Owner(s.calls[c]) ==> OwnerOk(s, s.calls[c]))
    && (forall c, d :: 0 <= c < d < |s.calls| && Owner(s.calls[c]) && Owner(s.calls[d]) ==>
          KeyOf(s.calls[c].request) != KeyOf(s.calls[d].request))
    && (forall c :: 0 <= c < |s.calls| && s.calls[c].pc.Returned? && !s.calls[c].pc.owner ==>
          s.calls[c].pc.result == DUPLICATE)
    && (forall i, j :: 0 <= i < j < |s.log| && s.log[i].normal ==> s.log[j].key != s.log[i].key)
    && (forall i :: 0 <= i < |s.log| ==> s.log[i].key in s.store)
  }

  /** A step in which only call c may gain or lose ownership. */
  ghost predicate OnlyMoves(s: State, t: State, c: nat) {
    && |t.calls| >= |s.calls| && c < |t.calls|
    && (forall d :: 0 <= d < |s.calls| ==> t.calls[d].request == s.calls[d].request)
    && (forall d :: 0 <= d < |t.calls| && d != c ==>
          (d < |s.calls| && t.calls[d] == s.calls[d]) || (!Owner(t.calls[d]) && !t.calls[d].pc.Returned?))
  }

  /** The store and the log change only at the key of call c. */
  ghost predicate OnlyKey(s: State, t: State, key: Key) {
    && (forall k :: k in s.store ==> k in t.store)
    && (forall k :: k in s.store && k != key ==> t.store[k] == s.store[k])
    && s.log <= t.log && (forall i :: |s.log| <= i < |t.log| ==> t.log[i].key == key)
  }

  lemma OtherOwnersStay(s: State, t: State, c: nat, d: nat)
    requires KeyInv(s) && OnlyMoves(s, t, c) && OnlyKey(s, t, KeyOf(t.calls[c].request))
    requires d < |t.calls| && d != c && Owner(t.calls[d]) && KeyOf(t.calls[d].request) != KeyOf(t.calls[c].request)
    ensures OwnerOk(t, t.calls[d])
  {
    var key := KeyOf(t.calls[d].request);
    assert OwnerOk(s, s.calls[d]);
    if SubmittedNormally(s.log, key) {
      var i :| 0 <= i < |s.log| && s.log[i] == Submission(key, true);
      assert t.log[i] == s.log[i];
    }
    assert SubmittedNormally(t.log, key) <==> SubmittedNormally(s.log, key);
  }

  /** The owner c of a key keeps the key part of the invariant by keeping its own part. */
  lemma OwnerStepKeepsInv(s: State, t: State, c: nat)
    requires KeyInv(s) && c < |s.calls| && Owner(s.calls[c])
    requires OnlyMoves(s, t, c) && OnlyKey(s, t, KeyOf(s.calls[c].request))
    requires Owner(t.calls[c]) && OwnerOk(t, t.calls[c])
    requires forall i, j :: 0 <= i < j < |t.log| && t.log[i].normal ==> t.log[j].key != t.log[i].key
    ensures KeyInv(t)
  {
    assert OwnerOk(s, s.calls[c]);
    forall d | 0 <= d < |t.calls| && Owner(t.calls[d]) ensures OwnerOk(t, t.calls[d]) {
      if d != c { OtherOwnersStay(s, t, c, d); }
    }
  }

  lemma LeaveMoves(s: State, c: nat, r: Result, owner: bool)
    requires c < |s.calls| && MutexInv(s) && Inside(s.calls[c])
    ensures OnlyMoves(s, Leave(s, c, r, owner), c)
    ensures Leave(s, c, r, owner).calls[c].pc == Returned(r, owner)
    ensures Leave(s, c, r, owner).store == s.store && Leave(s, c, r, owner).log == s.log
  {
    var m := MutexOf(s, s.calls[c].executor);
    if m.queue != [] { assert WaitsAt(s, s.calls[c].executor, 0); }
  }

  lemma ReserveKeepsKeys(s: State, c: nat)
    requires KeyInv(s) && MutexInv(s) && c < |s.calls| && s.calls[c].pc == Reserving
    ensures KeyInv(ReserveStep(s, c))
  {
    var t, key := ReserveStep(s, c), KeyOf(s.calls[c].request);
    if key in s.store {
      LeaveMoves(s, c, DUPLICATE, false);
      forall d | 0 <= d < |t.calls| && Owner(t.calls[d]) ensures OwnerOk(t, t.calls[d]) {
        assert OwnerOk(s, s.calls[d]);
      }
    } else {
      forall d | 0 <= d < |t.calls| && Owner(t.calls[d]) ensures OwnerOk(t, t.calls[d]) {
        if d != c { assert OwnerOk(s, s.calls[d]); }
      }
      forall d | 0 <= d < |t.calls| && Owner(t.calls[d]) && d != c ensures KeyOf(t.calls[d].request) != key {
        assert OwnerOk(s, s.calls[d]);
      }
    }
  }

  lemma SubmitKeepsKeys(s: State, c: nat, a: SubmitAnswer, max: nat)
    requires KeyInv(s) && c < |s.calls| && s.calls[c].pc.Submitting?
    ensures KeyInv(SubmitStep(s, c, a, max))
  {
    var t, key := SubmitStep(s, c, a, max), KeyOf(s.calls[c].request);
    assert OwnerOk(s, s.calls[c]);
    assert t.log[|s.log|] == Submission(key, a != Threw);
    assert SubmittedNormally(t.log, key) <==> a != Threw;
    forall i, j | 0 <= i < j < |t.log| && t.log[i].normal ensures t.log[j].key != t.log[i].key {
      if j == |s.log| { assert s.log[i] == Submission(t.log[i].key, true); }
    }
    OwnerStepKeepsInv(s, t, c);
  }

  lemma FinishKeepsKeys(s: State, c: nat)
    requires KeyInv(s) && MutexInv(s) && c < |s.calls| && s.calls[c].pc.Writing?
    ensures KeyInv(FinishStep(s, c))
  {
    assert OwnerOk(s, s.calls[c]);
    LeaveMoves(s, c, s.calls[c].pc.result, true);
    OwnerStepKeepsInv(s, FinishStep(s, c), c);
  }

  // ----- the mutexes -----

  /** Between acquiring the mutex and returning. */
  predicate Inside(k: Call) { !k.pc.Queued? && !k.pc.Returned? }

  ghost predicate WaitsAt(s: State, e: nat, i: nat)
    requires i < |MutexOf(s, e).queue|
  {
    var c := MutexOf(s, e).queue[i];
    c < |s.calls| && s.calls[c].executor == e && s.calls[c].pc == Queued
  }

  /** Nobody waits for a free mutex, and waiters stand in call order. */
  ghost predicate ShapeOk(m: Mutex) {
    && (!m.locked ==> m.queue == [])
    && forall i, j :: 0 <= i < j < |m.queue| ==> m.queue[i] < m.queue[j]
  }

  ghost predicate WaitersOk(s: State) {
    && (forall e, i :: 0 <= i < |MutexOf(s, e).queue| ==> WaitsAt(s, e, i))
    && (forall c :: 0 <= c < |s.calls| && s.calls[c].pc == Queued ==> c in MutexOf(s, s.calls[c].executor).queue)
  }

  ghost predicate AloneInside(s: State) {
    && (forall c, d :: 0 <= c < d < |s.calls| && Inside(s.calls[c]) && Inside(s.calls[d]) ==>
          s.calls[c].executor != s.calls[d].executor)
    && (forall c :: 0 <= c < |s.calls| && Inside(s.calls[c]) ==> MutexOf(s, s.calls[c].executor).locked)
  }

  ghost predicate MutexInv(s: State) {
    WaitersOk(s) && AloneInside(s) && forall e :: ShapeOk(MutexOf(s, e))
  }

  lemma PlaceKeepsWaiters(s: State, e: nat, q: Request)
    requires WaitersOk(s)
    ensures WaitersOk(PlaceStep(s, e, q))
  {
    var t := PlaceStep(s, e, q);
    forall x, i | 0 <= i < |MutexOf(t, x).queue| ensures WaitsAt(t, x, i) {
      if i < |MutexOf(s, x).queue| { assert WaitsAt(s, x, i); }
    }
    forall d | 0 <= d < |t.calls| && t.calls[d].pc == Queued ensures d in MutexOf(t, t.calls[d].executor).queue {
      if d < |s.calls| { assert d in MutexOf(s, s.calls[d].executor).queue; }
      else { assert MutexOf(t, e).queue[|MutexOf(s, e).queue|] == d; }
    }
  }

  lemma PlaceKeepsShape(s: State, e: nat, q: Request, x: nat)
    requires WaitersOk(s) && ShapeOk(MutexOf(s, x))
    ensures ShapeOk(MutexOf(PlaceStep(s, e, q), x))
  {
    forall i | 0 <= i < |MutexOf(s, x).queue| ensures MutexOf(s, x).queue[i] < |s.calls| { assert WaitsAt(s, x, i); }
  }

  lemma PlaceKeepsMutexes(s: State, e: nat, q: Request)
    requires MutexInv(s)
    ensures MutexInv(PlaceStep(s, e, q))
  {
    PlaceKeepsWaiters(s, e, q);
    forall x ensures ShapeOk(MutexOf(PlaceStep(s, e, q), x)) { PlaceKeepsShape(s, e, q, x); }
  }

  lemma LeaveKeepsWaiters(s: State, c: nat, r: Result, owner: bool)
    requires MutexInv(s) && c < |s.calls| && Inside(s.calls[c])
    ensures WaitersOk(Leave(s, c, r, owner))
  {
    var t, e := Leave(s, c, r, owner), s.calls[c].executor;
    var m := MutexOf(s, e);
    assert ShapeOk(m);
    if m.queue != [] { assert WaitsAt(s, e, 0); }
    forall x, i | 0 <= i < |MutexOf(t, x).queue| ensures WaitsAt(t, x, i) {
      if x == e {
        assert WaitsAt(s, x, i + 1);
        assert m.queue[0] < m.queue[i + 1];
      } else {
        assert WaitsAt(s, x, i);
      }
    }
    forall d | 0 <= d < |t.calls| && t.calls[d].pc == Queued ensures d in MutexOf(t, t.calls[d].executor).queue {
      assert d in MutexOf(s, s.calls[d].executor).queue;
    }
  }

  lemma LeaveKeepsAlone(s: State, c: nat, r: Result, owner: bool)
    requires MutexInv(s) && c < |s.calls| && Inside(s.calls[c])
    ensures AloneInside(Leave(s, c, r, owner))
  {
    var e := s.calls[c].executor;
    if MutexOf(s, e).queue != [] { assert WaitsAt(s, e, 0); }
  }

  lemma LeaveKeepsMutexes(s: State, c: nat, r: Result, owner: bool)
    requires MutexInv(s) && c < |s.calls| && Inside(s.calls[c])
    ensures MutexInv(Leave(s, c, r, owner))
  {
    var t := Leave(s, c, r, owner);
    LeaveKeepsWaiters(s, c, r, owner);
    LeaveKeepsAlone(s, c, r, owner);
    forall x ensures ShapeOk(MutexOf(t, x)) {
      assert ShapeOk(MutexOf(s, x)) && ShapeOk(MutexOf(s, s.calls[c].executor));
    }
  }

  /** A step that leaves every call where it is with respect to the mutex. */
  lemma QuietKeepsMutexes(s: State, t: State)
    requires MutexInv(s) && t.mutexes == s.mutexes && |t.calls| == |s.calls|
    requires forall c :: 0 <= c < |s.calls| ==>
               && t.calls[c].executor == s.calls[c].executor
               && (t.calls[c].pc == s.calls[c].pc || (Inside(s.calls[c]) && Inside(t.calls[c])))
    ensures MutexInv(t)
  {
    forall x, i | 0 <= i < |MutexOf(t, x).queue| ensures WaitsAt(t, x, i) { assert WaitsAt(s, x, i); }
    forall x ensures ShapeOk(MutexOf(t, x)) { assert ShapeOk(MutexOf(s, x)); }
  }

  lemma StepKeepsMutexes(s: State, e: Event, max: nat)
    requires MutexInv(s)
    ensures MutexInv(Step(s, e, max))
  {
    if Step(s, e, max) != s {
      match e
      case Place(x, q) => PlaceKeepsMutexes(s, x, q);
      case Reserve(c) =>
        if KeyOf(s.calls[c].request) in s.store { LeaveKeepsMutexes(s, c, DUPLICATE, false); }
        else { QuietKeepsMutexes(s, Step(s, e, max)); }
      case Finish(c) =>
        LeaveKeepsMutexes(s, c, s.calls[c].pc.result, true);
        QuietKeepsMutexes(Leave(s, c, s.calls[c].pc.result, true), Step(s, e, max));
      case _ => QuietKeepsMutexes(s, Step(s, e, max));
    }
  }

  lemma PlaceKeepsKeys(s: State, x: nat, q: Request)
    requires KeyInv(s)
    ensures KeyInv(PlaceStep(s, x, q))
  {
    var t := PlaceStep(s, x, q);
    forall d | 0 <= d < |t.calls| && Owner(t.calls[d]) ensures OwnerOk(t, t.calls[d]) {
      assert OwnerOk(s, s.calls[d]);
    }
  }

  lemma StepKeepsKeys(s: State, e: Event, max: nat)
    requires KeyInv(s) && MutexInv(s)
    ensures KeyInv(Step(s, e, max))
  {
    if Step(s, e, max) != s {
      match e
      case Place(x, q) => PlaceKeepsKeys(s, x, q);
      case Reserve(c) => ReserveKeepsKeys(s, c);
      case Submit(c, a) => SubmitKeepsKeys(s, c, a, max);
      case Confirm(c, a) =>
        assert OwnerOk(s, s.calls[c]);
        OwnerStepKeepsInv(s, Step(s, e, max), c);
      case Finish(c) => FinishKeepsKeys(s, c);
    }
  }

  lemma {:induction false} RunKeepsInv(es: seq<Event>, max: nat)
    ensures KeyInv(Run(es, max)) && MutexInv(Run(es, max))
  {
    if es != [] {
      var s, e := Run(es[..|es| - 1], max), es[|es| - 1];
      RunKeepsInv(es[..|es| - 1], max);
      StepKeepsKeys(s, e, max);
      StepKeepsMutexes(s, e, max);
    }
  }

  /** Who has entered the mutex of an executor came before those who wait for it. */
  ghost predicate ServedInOrder(s: State) {
    forall c, d :: 0 <= c < d < |s.calls| && s.calls[c].executor == s.calls[d].executor && s.calls[c].pc == Queued ==>
      s.calls[d].pc == Queued
  }

  lemma PlaceKeepsOrder(s: State, e: nat, q: Request)
    requires MutexInv(s) && ServedInOrder(s)
    ensures ServedInOrder(PlaceStep(s, e, q))
  {
    var m := MutexOf(s, e);
    assert ShapeOk(m);
    if !m.locked {
      forall c | 0 <= c < |s.calls| && s.calls[c].executor == e ensures s.calls[c].pc != Queued {
        assert s.calls[c].pc == Queued ==> c in m.queue;
      }
    }
  }

  lemma LeaveKeepsOrder(s: State, c: nat, r: Result, owner: bool)
    requires MutexInv(s) && ServedInOrder(s) && c < |s.calls| && Inside(s.calls[c])
    ensures ServedInOrder(Leave(s, c, r, owner))
  {
    var e := s.calls[c].executor;
    var m := MutexOf(s, e);
    assert ShapeOk(m);
    if m.queue != [] {
      assert WaitsAt(s, e, 0);
      forall d | 0 <= d < |s.calls| && s.calls[d].executor == e && s.calls[d].pc == Queued ensures d >= m.queue[0] {
        assert d in m.queue;
      }
    }
  }

  lemma StepKeepsOrder(s: State, e: Event, max: nat)
    requires MutexInv(s) && ServedInOrder(s)
    ensures ServedInOrder(Step(s, e, max))
  {
    match e
    case Place(x, q) => PlaceKeepsOrder(s, x, q);
    case Reserve(c) =>
      if c < |s.calls| && s.calls[c].pc == Reserving && KeyOf(s.calls[c].request) in s.store {
        LeaveKeepsOrder(s, c, DUPLICATE, false);
      }
    case Finish(c) =>
      if c < |s.calls| && s.calls[c].pc.Writing? { LeaveKeepsOrder(s, c, s.calls[c].pc.result, true); }
    case _ =>
  }

  // ----- theorems over every run and every adapter -----

  /** An executor serves its calls in call order: while one waits, no later one has begun. */
  lemma {:induction false} FirstCalledFirstServed(es: seq<Event>, max: nat)
    ensures ServedInOrder(Run(es, max))
  {
    if es != [] {
      FirstCalledFirstServed(es[..|es| - 1], max);
      RunKeepsInv(es[..|es| - 1], max);
      StepKeepsOrder(Run(es[..|es| - 1], max), es[|es| - 1], max);
    }
  }

  /** An executor places one bet at a time. */
  lemma OneBetAtATime(es: seq<Event>, max: nat, c: nat, d: nat)
    requires c < |Run(es, max).calls| && d < |Run(es, max).calls|
    requires Inside(Run(es, max).calls[c]) && Inside(Run(es, max).calls[d])
    requires Run(es, max).calls[c].executor == Run(es, max).calls[d].executor
    ensures c == d
  {
    RunKeepsInv(es, max);
  }

  /** At most one call per session and round returns placed, even across executors. */
  lemma PlacedOncePerRound(es: seq<Event>, max: nat, c: nat, d: nat)
    requires c < |Run(es, max).calls| && d < |Run(es, max).calls|
    requires var (k, l) := (Run(es, max).calls[c], Run(es, max).calls[d]);
             k.request.session == l.request.session && k.request.round == l.request.round
             && k.pc.Returned? && k.pc.result.placed && l.pc.Returned? && l.pc.result.placed
    ensures c == d
  {
    RunKeepsInv(es, max);
  }

  /** At most one submission of a key returns normally, and no submission of that key
      follows it. */
  lemma SubmittedOnce(es: seq<Event>, max: nat, i: nat, j: nat)
    requires i < j < |Run(es, max).log| && Run(es, max).log[i].normal
    ensures Run(es, max).log[j].key != Run(es, max).log[i].key
  {
    RunKeepsInv(es, max);
  }

  /** A returned call either was a duplicate, or the store has the status that matches its
      result: COMPLETED, UNKNOWN or FAILED. A live bet is reported FAILED exactly when no
      submission of its key returned normally. */
  lemma StoredStatusMatches(es: seq<Event>, max: nat, c: nat)
    requires c < |Run(es, max).calls| && Run(es, max).calls[c].pc.Returned?
    ensures var s, k := Run(es, max), Run(es, max).calls[c];
            var key, r := KeyOf(k.request), k.pc.result;
            if !k.pc.owner then r == DUPLICATE
            else
              && key in s.store && s.store[key] == Matching(r.verdict)
              && (r.placed <==> r.verdict == CONFIRMED)
              && (!k.request.dryRun ==> (r.verdict == FAILED <==> !SubmittedNormally(s.log, key)))
  {
    RunKeepsInv(es, max);
    if Run(es, max).calls[c].pc.owner { assert OwnerOk(Run(es, max), Run(es, max).calls[c]); }
  }

  // ----- how often a bet is submitted -----

  /** How many finished submissions of a key there are, and how many of them threw. */
  function Submissions(log: seq<Submission>, key: Key): nat {
    if log == [] then 0
    else Submissions(log[..|log| - 1], key) + (if log[|log| - 1].key == key then 1 else 0)
  }

  function Thrown(log: seq<Submission>, key: Key): nat {
    if log == [] then 0
    else
      var l := log[|log| - 1];
      Thrown(log[..|log| - 1], key) + (if l.key == key && !l.normal then 1 else 0)
  }

  lemma SubmissionsSnoc(log: seq<Submission>, x: Submission, key: Key)
    ensures Submissions(log + [x], key) == Submissions(log, key) + (if x.key == key then 1 else 0)
    ensures Thrown(log + [x], key) == Thrown(log, key) + (if x.key == key && !x.normal then 1 else 0)
  {
    assert (log + [x])[..|log|] == log;
  }

  lemma {:induction false} NotInLog(log: seq<Submission>, key: Key)
    requires forall i :: 0 <= i < |log| ==> log[i].key != key
    ensures Submissions(log, key) == 0 && Thrown(log, key) == 0
  {
    if log != [] { NotInLog(log[..|log| - 1], key); }
  }

  /** The submissions of an owner's key so far: all of them threw, but the last one when the
      loop ended with it. */
  ghost predicate CountOk(log: seq<Submission>, k: Call, max: nat) {
    var n, t := Submissions(log, KeyOf(k.request)), Thrown(log, KeyOf(k.request));
    match k.pc
    case Submitting(a) => n == t == a <= max
    case Confirming(a) => n == a + 1 && t == a <= max
    case Writing(r) => ResultCountOk(k.request, r, n, t, max)
    case Returned(r, owner) => owner ==> ResultCountOk(k.request, r, n, t, max)
    case _ => true
  }

  predicate ResultCountOk(q: Request, r: Result, n: nat, t: nat, max: nat) {
    if q.dryRun then n == 0
    else n == r.retryCount + 1 && r.retryCount <= max && t == (if r.verdict == FAILED then n else n - 1)
         && (r.verdict == FAILED ==> r.retryCount == max)
  }

  ghost predicate CountInv(s: State, max: nat) {
    forall c :: 0 <= c < |s.calls| && Owner(s.calls[c]) ==> CountOk(s.log, s.calls[c], max)
  }

  /** A step that leaves the log alone and moves no owner but c. */
  lemma QuietKeepsCounts(s: State, t: State, c: nat, max: nat)
    requires CountInv(s, max) && OnlyMoves(s, t, c) && t.log == s.log
    requires Owner(t.calls[c]) ==> CountOk(t.log, t.calls[c], max)
    ensures CountInv(t, max)
  {
    forall d | 0 <= d < |t.calls| && Owner(t.calls[d]) ensures CountOk(t.log, t.calls[d], max) {
      if d != c { assert CountOk(s.log, s.calls[d], max); }
    }
  }

  lemma ReserveKeepsCounts(s: State, c: nat, max: nat)
    requires CountInv(s, max) && KeyInv(s) && MutexInv(s) && c < |s.calls| && s.calls[c].pc == Reserving
    ensures CountInv(ReserveStep(s, c), max)
  {
    var key := KeyOf(s.calls[c].request);
    if key in s.store {
      LeaveMoves(s, c, DUPLICATE, false);
    } else {
      NotInLog(s.log, key);
    }
    QuietKeepsCounts(s, ReserveStep(s, c), c, max);
  }

  lemma SubmitKeepsCounts(s: State, c: nat, a: SubmitAnswer, max: nat)
    requires CountInv(s, max) && KeyInv(s) && c < |s.calls| && s.calls[c].pc.Submitting?
    ensures CountInv(SubmitStep(s, c, a, max), max)
  {
    var t, key := SubmitStep(s, c, a, max), KeyOf(s.calls[c].request);
    assert CountOk(s.log, s.calls[c], max) && OwnerOk(s, s.calls[c]);
    forall d | 0 <= d < |t.calls| && Owner(t.calls[d]) ensures CountOk(t.log, t.calls[d], max) {
      SubmissionsSnoc(s.log, Submission(key, a != Threw), KeyOf(t.calls[d].request));
      if d != c { assert CountOk(s.log, s.calls[d], max); }
    }
  }

  lemma ConfirmKeepsCounts(s: State, c: nat, a: ConfirmAnswer, max: nat)
    requires CountInv(s, max) && KeyInv(s) && c < |s.calls| && s.calls[c].pc.Confirming?
    ensures CountInv(Step(s, Confirm(c, a), max), max)
  {
    assert CountOk(s.log, s.calls[c], max) && OwnerOk(s, s.calls[c]);
    QuietKeepsCounts(s, Step(s, Confirm(c, a), max), c, max);
  }

  lemma FinishKeepsCounts(s: State, c: nat, max: nat)
    requires CountInv(s, max) && KeyInv(s) && MutexInv(s) && c < |s.calls| && s.calls[c].pc.Writing?
    ensures CountInv(FinishStep(s, c), max)
  {
    assert CountOk(s.log, s.calls[c], max);
    LeaveMoves(s, c, s.calls[c].pc.result, true);
    QuietKeepsCounts(s, FinishStep(s, c), c, max);
  }

  lemma {:induction false} RunKeepsCounts(es: seq<Event>, max: nat)
    ensures CountInv(Run(es, max), max)
  {
    if es != [] {
      var p, e := es[..|es| - 1], es[|es| - 1];
      var s := Run(p, max);
      RunKeepsCounts(p, max);
      RunKeepsInv(p, max);
      if Step(s, e, max) != s {
        match e
        case Place(x, q) => QuietKeepsCounts(s, PlaceStep(s, x, q), |s.calls|, max);
        case Reserve(c) => ReserveKeepsCounts(s, c, max);
        case Submit(c, a) => SubmitKeepsCounts(s, c, a, max);
        case Confirm(c, a) => ConfirmKeepsCounts(s, c, a, max);
        case Finish(c) => FinishKeepsCounts(s, c, max);
      }
    }
  }

  /** In every run a returned live bet has been submitted exactly retryCount + 1 times: more
      than once if and only if retryCount is above 0, and if and only if a submission threw
      and retries are allowed at all. All submissions but the last threw, and
      so did that if the bet is reported FAILED, which is after all max + 1 attempts. */
  lemma SubmissionsAreRetries(es: seq<Event>, max: nat, c: nat)
    requires c < |Run(es, max).calls| && Run(es, max).calls[c].pc.Returned? && Run(es, max).calls[c].pc.owner
    requires !Run(es, max).calls[c].request.dryRun
    ensures var s, k := Run(es, max), Run(es, max).calls[c];
            var n, r := Submissions(s.log, KeyOf(k.request)), k.pc.result;
            && n == r.retryCount + 1 && (n > 1 <==> r.retryCount > 0)
            && (n > 1 <==> max > 0 && Thrown(s.log, KeyOf(k.request)) > 0)
            && Thrown(s.log, KeyOf(k.request)) == (if r.verdict == FAILED then n else n - 1)
            && (r.verdict == FAILED ==> n == max + 1)
  {
    RunKeepsCounts(es, max);
    assert CountOk(Run(es, max).log, Run(es, max).calls[c], max);
  }

  lemma RunSnoc(es: seq<Event>, e: Event, max: nat)
    ensures Run(es + [e], max) == Step(Run(es, max), e, max)
  {
    assert (es + [e])[..|es|] == es;
  }

  /** The documented rule, no retry once `submitBet` has been called, fails: a first call that
      throws, as a timeout after the bet has reached the platform does, is followed by a
      second one, and the bet is reported placed. */
  lemma SubmittedTwice(q: Request, max: nat) returns (es: seq<Event>)
    requires !q.dryRun && max > 0
    ensures var s := Run(es, max);
            && s.log == [Submission(KeyOf(q), false), Submission(KeyOf(q), true)]
            && |s.calls| == 1 && s.calls[0] == Call(0, q, Returned(Result(true, CONFIRMED, 1), true))
  {
    es := [] + [Place(0, q)];
    RunSnoc([], Place(0, q), max);
    RunSnoc(es, Reserve(0), max);
    es := es + [Reserve(0)];
    RunSnoc(es, Submit(0, Threw), max);
    es := es + [Submit(0, Threw)];
    assert Run(es, max).log == [Submission(KeyOf(q), false)];
    assert Run(es, max).calls == [Call(0, q, Submitting(1))];
    es := RetrySucceeds(es, q, max);
  }

  lemma RetrySucceeds(start: seq<Event>, q: Request, max: nat) returns (es: seq<Event>)
    requires Run(start, max).calls == [Call(0, q, Submitting(1))]
    requires Run(start, max).log == [Submission(KeyOf(q), false)]
    ensures var s := Run(es, max);
            && s.log == [Submission(KeyOf(q), false), Submission(KeyOf(q), true)]
            && |s.calls| == 1 && s.calls[0] == Call(0, q, Returned(Result(true, CONFIRMED, 1), true))
  {
    RunKeepsInv(start, max);
    RunSnoc(start, Submit(0, Accepted), max);
    es := start + [Submit(0, Accepted)];
    RunSnoc(es, Confirm(0, Yes), max);
    es := es + [Confirm(0, Yes)];
    RunKeepsInv(es, max);
    LeaveMoves(Run(es, max), 0, Result(true, CONFIRMED, 1), true);
    RunSnoc(es, Finish(0), max);
    es := es + [Finish(0)];
  }

  // ----- the interleaved steps of one call are the sequential method -----

  function RunFrom(s: State, es: seq<Event>, max: nat): State
    decreases |es|
  {
    if es == [] then s else RunFrom(Step(s, es[0], max), es[1..], max)
  }

  /** The events of call c from attempt n on, when the adapter answers so. */
  function Script(c: nat, n: nat, max: nat, answers: seq<SubmitAnswer>, confirm: ConfirmAnswer): seq<Event>
    requires |answers| > max && n <= max
    decreases max - n
  {
    match answers[n]
    case Accepted => [Submit(c, Accepted), Confirm(c, confirm), Finish(c)]
    case Rejected => [Submit(c, Rejected), Finish(c)]
    case Threw => [Submit(c, Threw)] + (if n < max then Script(c, n + 1, max, answers, confirm) else [Finish(c)])
  }

  /** After the submission that ends the loop. */
  lemma RestOfScript(s: State, c: nat, max: nat, es: seq<Event>, r: Result)
    requires MutexInv(s) && c < |s.calls|
    requires || (s.calls[c].pc == Writing(r) && es == [Finish(c)])
             || (s.calls[c].pc.Confirming? && exists a ::
                   es == [Confirm(c, a), Finish(c)]
                   && r == if a == Yes then Result(true, CONFIRMED, s.calls[c].pc.attempt)
                           else Result(false, UNKNOWN, s.calls[c].pc.attempt))
    ensures var t := RunFrom(s, es, max); c < |t.calls| && t.calls[c].pc == Returned(r, true)
    decreases |es|
  {
    if s.calls[c].pc.Writing? {
      LeaveMoves(s, c, r, true);
      assert es[1..] == [];
    } else {
      var t := Step(s, es[0], max);
      StepKeepsMutexes(s, es[0], max);
      assert es[1..] == [Finish(c)];
      RestOfScript(t, c, max, es[1..], r);
    }
  }

  /** Left alone, a call that got the key returns what the sequential loop computes. */
  lemma {:induction false} CallAloneIsOutcome(
    s: State, c: nat, n: nat, max: nat, answers: seq<SubmitAnswer>, confirm: ConfirmAnswer)
    requires MutexInv(s) && c < |s.calls| && s.calls[c].pc == Submitting(n)
    requires |answers| > max && n <= max && forall j :: 0 <= j < n ==> answers[j] == Threw
    ensures var t := RunFrom(s, Script(c, n, max, answers, confirm), max);
            c < |t.calls| && t.calls[c].pc == Returned(Outcome(false, max, answers, confirm), true)
    decreases max - n
  {
    var a := answers[n];
    var es := Script(c, n, max, answers, confirm);
    var s1 := Step(s, es[0], max);
    assert s1 == SubmitStep(s, c, a, max);
    QuietKeepsMutexes(s, s1);
    if a == Threw && n < max {
      assert es[1..] == Script(c, n + 1, max, answers, confirm);
      CallAloneIsOutcome(s1, c, n + 1, max, answers, confirm);
    } else {
      assert FirstReturn(answers, 0, max) == if a == Threw then max + 1 else n;
      RestOfScript(s1, c, max, es[1..], Outcome(false, max, answers, confirm));
    }
  }
}
