/** `NotificationQueue`: priority order, retry with backoff and a dead-letter list, with
    enqueues and dequeues arriving in the middle of a flush.

    A flush is split at its one await, the call of `deliver`. The dead-letter callback
    is taken not to throw. Messages are numbered in enqueue order. */
module NotificationQueue {
  import opened Options
  import opened StableSort

  datatype Priority = Critical | High | Normal | Low | Other(name: string)

  /** `lastAttempt` is 0 until the first failure, which the code reads as "never". */
  datatype Item = Item(id: nat, priority: Priority, attempts: nat, lastAttempt: nat)

  /** The local variables of a running flush. While `calling`, the first of `batch` is with
      `deliver`, called at time `now`. */
  datatype Flush = Flush(batch: seq<Item>, remaining: seq<Item>, calling: bool, now: nat)

  datatype Metrics = Metrics(enqueued: nat, delivered: nat, failed: nat, deadLettered: nat)

  /** A finished call of `deliver`, begun at time `at`. */
  datatype Attempt = Attempt(id: nat, ok: bool, at: nat)

  datatype Config = Config(maxSize: nat, retryAttempts: nat, retryDelay: nat)

  datatype Outcome = Accepted | Refused | Threw

  /** `delivered`, `dropped`, `dequeued` and `log` record what happened to messages that
      have left the queue. */
  datatype State = State(
    queue: seq<Item>, deadLetter: seq<Item>, flush: Option<Flush>, destroyed: bool, metrics: Metrics,
    delivered: seq<Item>, dropped: seq<Item>, dequeued: seq<Item>, log: seq<Attempt>)

  datatype Event =
    | Enqueue(priority: Priority)
    | Dequeue
    | BeginFlush
    | NextItem(now: nat)
    | Answer(outcome: Outcome)
    | EndFlush
    | Destroy

  const INITIAL := State([], [], None, false, Metrics(0, 0, 0, 0), [], [], [], [])

  function Rank(p: Priority): nat {
    match p
    case Critical => 0
    case High => 1
    case Normal => 2
    case Low => 3
    case Other(_) => 2
  }

  function Key(m: Item): real { Rank(m.priority) as real }

  predicate Droppable(m: Item) { m.priority.Low? || m.priority.Normal? }

  /** The first position of a normal or low message, or the length. */
  function FirstDroppable(q: seq<Item>): (i: nat)
    ensures i <= |q|
    ensures i < |q| ==> Droppable(q[i])
    ensures forall j :: 0 <= j < i ==> !Droppable(q[j])
  {
    if q == [] || Droppable(q[0]) then 0 else 1 + FirstDroppable(q[1..])
  }

  /** The position a full queue drops. */
  function Victim(q: seq<Item>): (i: nat)
    requires q != []
    ensures i < |q|
  {
    var i := FirstDroppable(q);
    if i < |q| then i else 0
  }

  function Without(q: seq<Item>, i: nat): seq<Item>
    requires i < |q|
  {
    q[..i] + q[i + 1..]
  }

  predicate Full(q: seq<Item>, cfg: Config) { |q| >= cfg.maxSize && q != [] }

  /** The queue once an enqueue has made room. */
  function Kept(q: seq<Item>, cfg: Config): seq<Item> {
    if Full(q, cfg) then Without(q, Victim(q)) else q
  }

  function EnqueueStep(s: State, p: Priority, cfg: Config): State {
    var added := Item(s.metrics.enqueued, p, 0, 0);
    s.(queue := Sort(Key, Kept(s.queue, cfg) + [added]),
       metrics := s.metrics.(enqueued := s.metrics.enqueued + 1),
       dropped := if Full(s.queue, cfg) then s.dropped + [s.queue[Victim(s.queue)]] else s.dropped)
  }

  function Power2(n: nat): nat { if n == 0 then 1 else 2 * Power2(n - 1) }

  /** The wait after so many failures. */
  function Backoff(attempts: nat, cfg: Config): nat {
    cfg.retryDelay * Power2(if attempts < 6 then attempts else 6)
  }

  predicate BackingOff(m: Item, now: nat, cfg: Config) {
    m.lastAttempt != 0 && now - m.lastAttempt < Backoff(m.attempts, cfg)
  }

  function NextStep(s: State, f: Flush, now: nat, cfg: Config): State
    requires f.batch != []
  {
    if BackingOff(f.batch[0], now, cfg)
    then s.(flush := Some(f.(batch := f.batch[1..], remaining := f.remaining + [f.batch[0]])))
    else s.(flush := Some(f.(calling := true, now := now)))
  }

  function AnswerStep(s: State, f: Flush, o: Outcome, cfg: Config): State
    requires f.batch != []
  {
    var m, rest, x := f.batch[0], f.batch[1..], s.metrics;
    if o == Accepted then
      s.(flush := Some(Flush(rest, f.remaining, false, f.now)),
         delivered := s.delivered + [m], log := s.log + [Attempt(m.id, true, f.now)],
         metrics := x.(delivered := x.delivered + 1))
    else
      var m' := m.(attempts := m.attempts + 1, lastAttempt := f.now);
      if m'.attempts >= cfg.retryAttempts then
        s.(flush := Some(Flush(rest, f.remaining, false, f.now)),
           deadLetter := s.deadLetter + [m'], log := s.log + [Attempt(m.id, false, f.now)],
           metrics := x.(failed := x.failed + 1, deadLettered := x.deadLettered + 1))
      else
        s.(flush := Some(Flush(rest, f.remaining + [m'], false, f.now)), log := s.log + [Attempt(m.id, false, f.now)],
           metrics := x.(failed := x.failed + 1))
  }

  function Step(s: State, e: Event, cfg: Config): State {
    match e
    case Enqueue(p) => if s.destroyed then s else EnqueueStep(s, p, cfg)
    case Dequeue =>
      if s.queue == [] then s else s.(queue := s.queue[1..], dequeued := s.dequeued + [s.queue[0]])
    case BeginFlush =>
      if s.destroyed || s.flush.Some? then s
      else s.(queue := [], flush := Some(Flush(s.queue, [], false, 0)))
    case NextItem(now) =>
      if s.flush.Some? && s.flush.value.batch != [] && !s.flush.value.calling
      then NextStep(s, s.flush.value, now, cfg) else s
    case Answer(o) =>
      if s.flush.Some? && s.flush.value.batch != [] && s.flush.value.calling
      then AnswerStep(s, s.flush.value, o, cfg) else s
    case EndFlush =>
      if s.flush.Some? && s.flush.value.batch == []
      then s.(queue := s.flush.value.remaining + s.queue, flush := None) else s
    case Destroy => s.(destroyed := true, queue := [], dropped := s.dropped + s.queue)
  }

  function Run(es: seq<Event>, cfg: Config): State {
    if es == [] then INITIAL else Step(Run(es[..|es| - 1], cfg), es[|es| - 1], cfg)
  }

  // ----- the queue object -----

  class Queue {
    const cfg: Config
    var queue: seq<Item>
    var deadLetter: seq<Item>
    var flush: Option<Flush>
    var destroyed: bool
    var metrics: Metrics
    ghost var delivered: seq<Item>
    ghost var dropped: seq<Item>
    ghost var dequeued: seq<Item>
    ghost var log: seq<Attempt>

    ghost function Abstract(): State reads this {
      State(queue, deadLetter, flush, destroyed, metrics, delivered, dropped, dequeued, log)
    }

    constructor (cfg: Config)
      ensures Abstract() == INITIAL && this.cfg == cfg
    {
      this.cfg := cfg;
      queue, deadLetter, flush, destroyed, metrics := [], [], None, false, Metrics(0, 0, 0, 0);
      delivered, dropped, dequeued, log := [], [], [], [];
    }

    /** Drops one message from a full queue; an empty queue has none to drop. */
    method MakeRoom()
      modifies this`queue, this`dropped
      ensures queue == Kept(old(queue), cfg)
      ensures dropped == if Full(old(queue), cfg) then old(dropped) + [old(queue)[Victim(old(queue))]] else old(dropped)
    {
      if |queue| < cfg.maxSize { return; }
      var lowIdx := FirstDroppable(queue);
      if lowIdx < |queue| {
        dropped := dropped + [queue[lowIdx]];
        queue := queue[..lowIdx] + queue[lowIdx + 1..];
      } else if queue != [] {
        dropped := dropped + [queue[0]];
        queue := queue[1..];
        assert queue == Without(old(queue), 0);
      }
    }

    method Add(priority: Priority)
      modifies this
      ensures Abstract() == Step(old(Abstract()), Enqueue(priority), cfg)
    {
      if destroyed { return; }
      MakeRoom();
      queue := queue + [Item(metrics.enqueued, priority, 0, 0)];
      metrics := metrics.(enqueued := metrics.enqueued + 1);
      queue := Sort(Key, queue);
    }

    method Take() returns (item: Option<Item>)
      modifies this
      ensures Abstract() == Step(old(Abstract()), Dequeue, cfg)
      ensures item == if old(queue) == [] then None else Some(old(queue)[0])
    {
      if queue == [] { return None; }
      item := Some(queue[0]);
      dequeued := dequeued + [queue[0]];
      queue := queue[1..];
    }

    method StartFlush()
      modifies this
      ensures Abstract() == Step(old(Abstract()), BeginFlush, cfg)
    {
      if destroyed || flush.Some? { return; }
      flush := Some(Flush(queue, [], false, 0));
      queue := [];
    }

    /** The flush loop at one item, up to the call of `deliver`. */
    method VisitItem(now: nat)
      requires flush.Some? && flush.value.batch != [] && !flush.value.calling
      modifies this
      ensures Abstract() == Step(old(Abstract()), NextItem(now), cfg)
    {
      var f := flush.value;
      var item := f.batch[0];
      if item.lastAttempt != 0 {
        var backoff := Backoff(item.attempts, cfg);
        if now - item.lastAttempt < backoff {
          flush := Some(f.(batch := f.batch[1..], remaining := f.remaining + [item]));
          return;
        }
      }
      flush := Some(f.(calling := true, now := now));
    }

    /** The flush loop after `deliver` has answered or thrown. */
    method HandleAnswer(o: Outcome)
      requires flush.Some? && flush.value.batch != [] && flush.value.calling
      modifies this
      ensures Abstract() == Step(old(Abstract()), Answer(o), cfg)
    {
      var f := flush.value;
      var item := f.batch[0];
      var remaining := f.remaining;
      log := log + [Attempt(item.id, o == Accepted, f.now)];
      if o == Accepted {
        delivered := delivered + [item];
        metrics := metrics.(delivered := metrics.delivered + 1);
      } else {
        item := item.(attempts := item.attempts + 1, lastAttempt := f.now);
        metrics := metrics.(failed := metrics.failed + 1);
        if item.attempts >= cfg.retryAttempts {
          deadLetter := deadLetter + [item];
          metrics := metrics.(deadLettered := metrics.deadLettered + 1);
        } else {
          remaining := remaining + [item];
        }
      }
      flush := Some(Flush(f.batch[1..], remaining, false, f.now));
    }

    method FinishFlush()
      requires flush.Some? && flush.value.batch == []
      modifies this
      ensures Abstract() == Step(old(Abstract()), EndFlush, cfg)
    {
      queue := flush.value.remaining + queue;
      flush := None;
    }

    method Shutdown()
      modifies this
      ensures Abstract() == Step(old(Abstract()), Destroy, cfg)
    {
      destroyed := true;
      dropped := dropped + queue;
      queue := [];
    }
  }

  // ----- where every message is -----

  function Batch(s: State): seq<Item> { if s.flush.Some? then s.flush.value.batch else [] }
  function Remaining(s: State): seq<Item> { if s.flush.Some? then s.flush.value.remaining else [] }

  /** How often an id occurs. */
  function Count(q: seq<Item>, id: nat): nat {
    if q == [] then 0 else Count(q[..|q| - 1], id) + (if q[|q| - 1].id == id then 1 else 0)
  }

  lemma CountSnoc(q: seq<Item>, m: Item, id: nat)
    ensures Count(q + [m], id) == Count(q, id) + (if m.id == id then 1 else 0)
  {
    assert (q + [m])[..|q|] == q;
  }

  lemma {:induction false} CountConcat(a: seq<Item>, b: seq<Item>, id: nat)
    ensures Count(a + b, id) == Count(a, id) + Count(b, id)
  {
    if b == [] {
      assert a + b == a;
    } else {
      CountConcat(a, b[..|b| - 1], id);
      assert (a + b)[..|a + b| - 1] == a + b[..|b| - 1];
    }
  }

  lemma CountHead(q: seq<Item>, id: nat)
    requires q != []
    ensures Count(q, id) == (if q[0].id == id then 1 else 0) + Count(q[1..], id)
  {
    assert q == [q[0]] + q[1..];
    CountConcat([q[0]], q[1..], id);
  }

  lemma CountWithout(q: seq<Item>, i: nat, id: nat)
    requires i < |q|
    ensures Count(q, id) == Count(Without(q, i), id) + (if q[i].id == id then 1 else 0)
  {
    assert q == q[..i] + q[i..];
    CountConcat(q[..i], q[i..], id);
    CountHead(q[i..], id);
    assert q[i..][1..] == q[i + 1..];
    CountConcat(q[..i], q[i + 1..], id);
  }

  lemma {:induction false} CountInsert(q: seq<Item>, m: Item, id: nat)
    ensures Count(Insert(Key, q, m), id) == Count(q, id) + (if m.id == id then 1 else 0)
  {
    if q == [] || Key(q[|q| - 1]) <= Key(m) {
      CountSnoc(q, m, id);
    } else {
      CountInsert(q[..|q| - 1], m, id);
      CountSnoc(Insert(Key, q[..|q| - 1], m), q[|q| - 1], id);
    }
  }

  lemma {:induction false} CountSort(q: seq<Item>, id: nat)
    ensures Count(Sort(Key, q), id) == Count(q, id)
  {
    if q != [] {
      CountSort(q[..|q| - 1], id);
      CountInsert(Sort(Key, q[..|q| - 1]), q[|q| - 1], id);
    }
  }

  lemma {:induction false} CountHas(q: seq<Item>, i: nat)
    requires i < |q|
    ensures Count(q, q[i].id) > 0
  {
    if i < |q| - 1 { CountHas(q[..|q| - 1], i); }
  }

  /** Messages that may still be delivered: left over, in the batch, or queued. */
  function PendingCount(s: State, id: nat): nat {
    Count(Remaining(s), id) + Count(Batch(s), id) + Count(s.queue, id)
  }

  function GoneCount(s: State, id: nat): nat {
    Count(s.deadLetter, id) + Count(s.delivered, id) + Count(s.dropped, id) + Count(s.dequeued, id)
  }

  function PlaceCount(s: State, id: nat): nat { PendingCount(s, id) + GoneCount(s, id) }

  /** Every message ever enqueued is in exactly one place. */
  ghost predicate PlaceInv(s: State) {
    forall id: nat :: PlaceCount(s, id) == if id < s.metrics.enqueued then 1 else 0
  }

  lemma EnqueueQueued(q: seq<Item>, m: Item, cfg: Config, id: nat)
    ensures Count(Sort(Key, Kept(q, cfg) + [m]), id)
            + (if Full(q, cfg) && q[Victim(q)].id == id then 1 else 0)
            == Count(q, id) + (if m.id == id then 1 else 0)
  {
    CountSort(Kept(q, cfg) + [m], id);
    CountSnoc(Kept(q, cfg), m, id);
    if Full(q, cfg) { CountWithout(q, Victim(q), id); }
  }

  lemma EnqueueDropped(s: State, p: Priority, cfg: Config, id: nat)
    ensures Count(EnqueueStep(s, p, cfg).dropped, id)
            == Count(s.dropped, id) + (if Full(s.queue, cfg) && s.queue[Victim(s.queue)].id == id then 1 else 0)
  {
    if Full(s.queue, cfg) { CountSnoc(s.dropped, s.queue[Victim(s.queue)], id); }
  }

  lemma EnqueuePlaces(s: State, p: Priority, cfg: Config, id: nat)
    ensures var t := EnqueueStep(s, p, cfg);
            PlaceCount(t, id) == PlaceCount(s, id) + (if id == s.metrics.enqueued then 1 else 0)
  {
    EnqueueQueued(s.queue, Item(s.metrics.enqueued, p, 0, 0), cfg, id);
    EnqueueDropped(s, p, cfg, id);
  }

  lemma SkipPlaces(s: State, f: Flush, now: nat, cfg: Config, id: nat)
    requires s.flush == Some(f) && f.batch != []
    ensures var t := NextStep(s, f, now, cfg);
            PlaceCount(t, id) == PlaceCount(s, id)
  {
    if BackingOff(f.batch[0], now, cfg) {
      CountHead(f.batch, id);
      CountSnoc(f.remaining, f.batch[0], id);
    }
  }

  /** Whether a failed delivery leaves the message in the flush. */
  predicate Retried(m: Item, o: Outcome, cfg: Config) {
    o != Accepted && m.attempts + 1 < cfg.retryAttempts
  }

  lemma AnswerPending(s: State, f: Flush, o: Outcome, cfg: Config, id: nat)
    requires s.flush == Some(f) && f.batch != []
    ensures PendingCount(AnswerStep(s, f, o, cfg), id)
            + (if f.batch[0].id == id && !Retried(f.batch[0], o, cfg) then 1 else 0) == PendingCount(s, id)
  {
    CountHead(f.batch, id);
    if Retried(f.batch[0], o, cfg) {
      CountSnoc(f.remaining, f.batch[0].(attempts := f.batch[0].attempts + 1, lastAttempt := f.now), id);
    }
  }

  lemma AnswerGone(s: State, f: Flush, o: Outcome, cfg: Config, id: nat)
    requires s.flush == Some(f) && f.batch != []
    ensures GoneCount(AnswerStep(s, f, o, cfg), id)
            == GoneCount(s, id) + (if f.batch[0].id == id && !Retried(f.batch[0], o, cfg) then 1 else 0)
  {
    CountSnoc(s.delivered, f.batch[0], id);
    CountSnoc(s.deadLetter, f.batch[0].(attempts := f.batch[0].attempts + 1, lastAttempt := f.now), id);
  }

  lemma TakePlaces(s: State, id: nat)
    requires s.queue != []
    ensures PlaceCount(s.(queue := s.queue[1..], dequeued := s.dequeued + [s.queue[0]]), id) == PlaceCount(s, id)
  {
    CountHead(s.queue, id);
    CountSnoc(s.dequeued, s.queue[0], id);
  }

  lemma FlushEndPlaces(s: State, f: Flush, id: nat)
    requires s.flush == Some(f) && f.batch == []
    ensures PlaceCount(s.(queue := f.remaining + s.queue, flush := None), id) == PlaceCount(s, id)
  {
    CountConcat(f.remaining, s.queue, id);
  }

  lemma DestroyPlaces(s: State, id: nat)
    ensures PlaceCount(s.(destroyed := true, queue := [], dropped := s.dropped + s.queue), id) == PlaceCount(s, id)
  {
    CountConcat(s.dropped, s.queue, id);
  }

  lemma StepPlaces(s: State, e: Event, cfg: Config, id: nat)
    ensures var t := Step(s, e, cfg);
            PlaceCount(t, id) == PlaceCount(s, id) + (if s.metrics.enqueued <= id < t.metrics.enqueued then 1 else 0)
  {
    if Step(s, e, cfg) != s {
      match e
      case Enqueue(p) => EnqueuePlaces(s, p, cfg, id);
      case Dequeue => TakePlaces(s, id);
      case BeginFlush =>
      case NextItem(now) => SkipPlaces(s, s.flush.value, now, cfg, id);
      case Answer(o) =>
        AnswerPending(s, s.flush.value, o, cfg, id);
        AnswerGone(s, s.flush.value, o, cfg, id);
      case EndFlush => FlushEndPlaces(s, s.flush.value, id);
      case Destroy => DestroyPlaces(s, id);
    }
  }

  lemma EnqueuedGrows(s: State, e: Event, cfg: Config)
    ensures s.metrics.enqueued <= Step(s, e, cfg).metrics.enqueued <= s.metrics.enqueued + 1
  {
  }

  lemma StepKeepsPlace(s: State, e: Event, cfg: Config)
    requires PlaceInv(s)
    ensures PlaceInv(Step(s, e, cfg))
  {
    var t := Step(s, e, cfg);
    EnqueuedGrows(s, e, cfg);
    forall id: nat ensures PlaceCount(t, id) == if id < t.metrics.enqueued then 1 else 0 {
      StepPlaces(s, e, cfg, id);
    }
  }

  lemma {:induction false} RunKeepsPlace(es: seq<Event>, cfg: Config)
    ensures PlaceInv(Run(es, cfg))
  {
    if es != [] {
      RunKeepsPlace(es[..|es| - 1], cfg);
      StepKeepsPlace(Run(es[..|es| - 1], cfg), es[|es| - 1], cfg);
    }
  }

  /** Conservation over every run: an id is in one place, once, when it was enqueued, and
      nowhere otherwise. */
  lemma EachMessageInOnePlace(es: seq<Event>, cfg: Config, id: nat)
    ensures var s := Run(es, cfg);
            Count(s.queue, id) + Count(Batch(s), id) + Count(Remaining(s), id) + Count(s.deadLetter, id)
            + Count(s.delivered, id) + Count(s.dropped, id) + Count(s.dequeued, id)
            == if id < s.metrics.enqueued then 1 else 0
  {
    RunKeepsPlace(es, cfg);
    var s := Run(es, cfg);
    assert PlaceCount(s, id) == if id < s.metrics.enqueued then 1 else 0;
  }

  // ----- attempts -----

  function Failures(log: seq<Attempt>, id: nat): nat {
    if log == [] then 0
    else
      var a := log[|log| - 1];
      Failures(log[..|log| - 1], id) + (if a.id == id && !a.ok then 1 else 0)
  }

  /** When a message was last attempted; 0 if never. */
  function LastAt(log: seq<Attempt>, id: nat): nat {
    if log == [] then 0
    else if log[|log| - 1].id == id then log[|log| - 1].at
    else LastAt(log[..|log| - 1], id)
  }

  ghost predicate Succeeded(log: seq<Attempt>, id: nat) {
    exists k :: 0 <= k < |log| && log[k].id == id && log[k].ok
  }

  ghost predicate LiveItem(m: Item, log: seq<Attempt>, cfg: Config) {
    && m.attempts == Failures(log, m.id) < cfg.retryAttempts && !Succeeded(log, m.id)
    && m.lastAttempt == LastAt(log, m.id)
  }

  ghost predicate LiveOk(q: seq<Item>, log: seq<Attempt>, cfg: Config) {
    forall i :: 0 <= i < |q| ==> LiveItem(q[i], log, cfg)
  }

  ghost predicate DeadOk(q: seq<Item>, log: seq<Attempt>, cfg: Config) {
    forall i :: 0 <= i < |q| ==>
      q[i].attempts == Failures(log, q[i].id) == cfg.retryAttempts && !Succeeded(log, q[i].id)
  }

  /** Nothing is attempted after its success, and what is logged was once enqueued. */
  ghost predicate LogOk(s: State) {
    && (forall i, j :: 0 <= i < j < |s.log| && s.log[i].ok ==> s.log[j].id != s.log[i].id)
    && (forall i :: 0 <= i < |s.log| ==> s.log[i].id < s.metrics.enqueued)
  }

  ghost predicate AttemptInv(s: State, cfg: Config) {
    && LiveOk(s.queue, s.log, cfg) && LiveOk(Batch(s), s.log, cfg) && LiveOk(Remaining(s), s.log, cfg)
    && DeadOk(s.deadLetter, s.log, cfg)
    && (forall i :: 0 <= i < |s.delivered| ==> Succeeded(s.log, s.delivered[i].id))
    && LogOk(s)
  }

  lemma FailuresSnoc(log: seq<Attempt>, a: Attempt, id: nat)
    ensures Failures(log + [a], id) == Failures(log, id) + (if a.id == id && !a.ok then 1 else 0)
    ensures LastAt(log + [a], id) == if a.id == id then a.at else LastAt(log, id)
    ensures Succeeded(log + [a], id) <==> Succeeded(log, id) || (a.id == id && a.ok)
  {
    var l := log + [a];
    assert l[..|log|] == log;
    if Succeeded(log, id) {
      var k :| 0 <= k < |log| && log[k].id == id && log[k].ok;
      assert l[k] == log[k];
    }
    if a.id == id && a.ok { assert l[|log|] == a; }
  }

  lemma {:induction false} UnknownHasNoFailures(log: seq<Attempt>, id: nat)
    requires forall i :: 0 <= i < |log| ==> log[i].id != id
    ensures Failures(log, id) == 0 && LastAt(log, id) == 0 && !Succeeded(log, id)
  {
    if log != [] { UnknownHasNoFailures(log[..|log| - 1], id); }
  }

  /** Attempts at one message leave the standing of all others as it is. */
  lemma OthersStay(q: seq<Item>, log: seq<Attempt>, a: Attempt)
    requires forall i :: 0 <= i < |q| ==> q[i].id != a.id
    ensures forall i :: 0 <= i < |q| ==>
              && Failures(log + [a], q[i].id) == Failures(log, q[i].id)
              && LastAt(log + [a], q[i].id) == LastAt(log, q[i].id)
              && (Succeeded(log + [a], q[i].id) <==> Succeeded(log, q[i].id))
  {
    forall i | 0 <= i < |q|
      ensures && Failures(log + [a], q[i].id) == Failures(log, q[i].id)
              && LastAt(log + [a], q[i].id) == LastAt(log, q[i].id)
              && (Succeeded(log + [a], q[i].id) <==> Succeeded(log, q[i].id))
    {
      FailuresSnoc(log, a, q[i].id);
    }
  }

  lemma CountIsNot(q: seq<Item>, id: nat)
    requires Count(q, id) == 0
    ensures forall i :: 0 <= i < |q| ==> q[i].id != id
  {
    forall i | 0 <= i < |q| ensures q[i].id != id { CountHas(q, i); }
  }

  /** The message being answered for is nowhere else. */
  lemma HeadIsAlone(s: State)
    requires PlaceInv(s) && Batch(s) != []
    ensures var id := Batch(s)[0].id;
            && id < s.metrics.enqueued
            && (forall i :: 0 <= i < |s.queue| ==> s.queue[i].id != id)
            && (forall i :: 0 <= i < |Remaining(s)| ==> Remaining(s)[i].id != id)
            && (forall i :: 0 <= i < |Batch(s)| - 1 ==> Batch(s)[1..][i].id != id)
            && (forall i :: 0 <= i < |s.deadLetter| ==> s.deadLetter[i].id != id)
  {
    var id := Batch(s)[0].id;
    CountHead(Batch(s), id);
    assert PlaceCount(s, id) == if id < s.metrics.enqueued then 1 else 0;
    CountIsNot(s.queue, id);
    CountIsNot(Remaining(s), id);
    CountIsNot(Batch(s)[1..], id);
    CountIsNot(s.deadLetter, id);
  }

  lemma AnswerKeepsLog(s: State, f: Flush, o: Outcome, cfg: Config)
    requires AttemptInv(s, cfg) && f.batch != [] && Batch(s) == f.batch && f.batch[0].id < s.metrics.enqueued
    ensures var t := AnswerStep(s, f, o, cfg);
            LogOk(t) && forall i :: 0 <= i < |t.delivered| ==> Succeeded(t.log, t.delivered[i].id)
  {
    var t := AnswerStep(s, f, o, cfg);
    assert !Succeeded(s.log, f.batch[0].id);
    var a := Attempt(f.batch[0].id, o == Accepted, f.now);
    assert t.log == s.log + [a];
    forall i | 0 <= i < |t.delivered| ensures Succeeded(t.log, t.delivered[i].id) {
      FailuresSnoc(s.log, a, t.delivered[i].id);
    }
    forall i, j | 0 <= i < j < |t.log| && t.log[i].ok ensures t.log[j].id != t.log[i].id {
      if j == |s.log| { assert s.log[i] == t.log[i]; }
    }
  }

  lemma LiveAfterAttempt(q: seq<Item>, log: seq<Attempt>, a: Attempt, cfg: Config)
    requires LiveOk(q, log, cfg) && forall i :: 0 <= i < |q| ==> q[i].id != a.id
    ensures LiveOk(q, log + [a], cfg)
  {
    OthersStay(q, log, a);
  }

  lemma DeadAfterAttempt(q: seq<Item>, log: seq<Attempt>, a: Attempt, cfg: Config)
    requires DeadOk(q, log, cfg) && forall i :: 0 <= i < |q| ==> q[i].id != a.id
    ensures DeadOk(q, log + [a], cfg)
  {
    OthersStay(q, log, a);
  }

  lemma LiveSnoc(q: seq<Item>, m: Item, log: seq<Attempt>, cfg: Config)
    requires LiveOk(q, log, cfg)
    requires LiveItem(m, log, cfg)
    ensures LiveOk(q + [m], log, cfg)
  {
  }

  lemma DeadSnoc(q: seq<Item>, m: Item, log: seq<Attempt>, cfg: Config)
    requires DeadOk(q, log, cfg)
    requires m.attempts == Failures(log, m.id) == cfg.retryAttempts && !Succeeded(log, m.id)
    ensures DeadOk(q + [m], log, cfg)
  {
  }

  lemma LiveTail(q: seq<Item>, log: seq<Attempt>, cfg: Config)
    requires q != [] && LiveOk(q, log, cfg)
    ensures LiveOk(q[1..], log, cfg)
  {
  }

  lemma HeadFails(s: State, cfg: Config, m: Item, now: nat)
    requires AttemptInv(s, cfg) && Batch(s) != [] && m == Batch(s)[0]
    ensures var m', log' := m.(attempts := m.attempts + 1, lastAttempt := now), s.log + [Attempt(m.id, false, now)];
            && m'.attempts == Failures(log', m.id) <= cfg.retryAttempts && !Succeeded(log', m.id)
            && m'.lastAttempt == LastAt(log', m.id)
  {
    FailuresSnoc(s.log, Attempt(m.id, false, now), m.id);
  }

  lemma AnswerKeepsItems(s: State, f: Flush, o: Outcome, cfg: Config)
    requires AttemptInv(s, cfg) && PlaceInv(s) && s.flush == Some(f) && f.batch != []
    ensures var t := AnswerStep(s, f, o, cfg);
            && LiveOk(t.queue, t.log, cfg) && LiveOk(Batch(t), t.log, cfg) && LiveOk(Remaining(t), t.log, cfg)
            && DeadOk(t.deadLetter, t.log, cfg)
  {
    var a := Attempt(f.batch[0].id, o == Accepted, f.now);
    HeadIsAlone(s);
    LiveTail(f.batch, s.log, cfg);
    LiveAfterAttempt(s.queue, s.log, a, cfg);
    LiveAfterAttempt(f.batch[1..], s.log, a, cfg);
    LiveAfterAttempt(f.remaining, s.log, a, cfg);
    DeadAfterAttempt(s.deadLetter, s.log, a, cfg);
    if o != Accepted {
      HeadFails(s, cfg, f.batch[0], f.now);
      var m' := f.batch[0].(attempts := f.batch[0].attempts + 1, lastAttempt := f.now);
      if m'.attempts < cfg.retryAttempts {
        LiveSnoc(f.remaining, m', s.log + [a], cfg);
      } else {
        DeadSnoc(s.deadLetter, m', s.log + [a], cfg);
      }
    }
  }

  lemma {:induction false} SortedHasSame(q: seq<Item>, log: seq<Attempt>, cfg: Config)
    requires LiveOk(q, log, cfg)
    ensures LiveOk(Sort(Key, q), log, cfg)
  {
    SortSorts(Key, q);
    var r := Sort(Key, q);
    forall i | 0 <= i < |r| ensures LiveItem(r[i], log, cfg) {
      assert r[i] in multiset(r);
      var k :| 0 <= k < |q| && q[k] == r[i];
    }
  }

  lemma EnqueueKeepsAttempts(s: State, p: Priority, cfg: Config)
    requires AttemptInv(s, cfg) && cfg.retryAttempts >= 1
    ensures AttemptInv(EnqueueStep(s, p, cfg), cfg)
  {
    var kept := Kept(s.queue, cfg);
    var added := Item(s.metrics.enqueued, p, 0, 0);
    UnknownHasNoFailures(s.log, s.metrics.enqueued);
    assert LiveOk(kept, s.log, cfg);
    assert LiveOk(kept + [added], s.log, cfg);
    SortedHasSame(kept + [added], s.log, cfg);
  }

  lemma AnswerKeepsAttempts(s: State, f: Flush, o: Outcome, cfg: Config)
    requires AttemptInv(s, cfg) && PlaceInv(s) && s.flush == Some(f) && f.batch != []
    ensures AttemptInv(AnswerStep(s, f, o, cfg), cfg)
  {
    HeadIsAlone(s);
    AnswerKeepsLog(s, f, o, cfg);
    AnswerKeepsItems(s, f, o, cfg);
  }

  lemma SkipKeepsAttempts(s: State, f: Flush, now: nat, cfg: Config)
    requires AttemptInv(s, cfg) && s.flush == Some(f) && f.batch != []
    ensures AttemptInv(NextStep(s, f, now, cfg), cfg)
  {
    LiveTail(f.batch, s.log, cfg);
    LiveSnoc(f.remaining, f.batch[0], s.log, cfg);
  }

  lemma StepKeepsAttempts(s: State, e: Event, cfg: Config)
    requires AttemptInv(s, cfg) && PlaceInv(s) && cfg.retryAttempts >= 1
    ensures AttemptInv(Step(s, e, cfg), cfg)
  {
    if Step(s, e, cfg) != s {
      match e
      case Enqueue(p) => EnqueueKeepsAttempts(s, p, cfg);
      case NextItem(now) => SkipKeepsAttempts(s, s.flush.value, now, cfg);
      case Answer(o) => AnswerKeepsAttempts(s, s.flush.value, o, cfg);
      case _ =>
    }
  }

  lemma {:induction false} RunKeepsAttempts(es: seq<Event>, cfg: Config)
    requires cfg.retryAttempts >= 1
    ensures AttemptInv(Run(es, cfg), cfg)
  {
    if es != [] {
      RunKeepsAttempts(es[..|es| - 1], cfg);
      RunKeepsPlace(es[..|es| - 1], cfg);
      StepKeepsAttempts(Run(es[..|es| - 1], cfg), es[|es| - 1], cfg);
    }
  }

  /** Over every run: a message still pending has fewer than retryAttempts failed deliveries
      and no successful one, a dead letter has exactly retryAttempts failed ones, and no
      message is handed to `deliver` again after a success. */
  lemma AttemptLimits(es: seq<Event>, cfg: Config)
    requires cfg.retryAttempts >= 1
    ensures var s := Run(es, cfg);
            && (forall m :: m in s.queue || m in Batch(s) || m in Remaining(s) ==>
                  Failures(s.log, m.id) < cfg.retryAttempts && !Succeeded(s.log, m.id))
            && (forall m :: m in s.deadLetter ==>
                  Failures(s.log, m.id) == cfg.retryAttempts && !Succeeded(s.log, m.id))
            && (forall m :: m in s.delivered ==> Succeeded(s.log, m.id))
            && (forall i, j :: 0 <= i < j < |s.log| && s.log[i].ok ==> s.log[j].id != s.log[i].id)
  {
    RunKeepsAttempts(es, cfg);
  }

  // ----- backoff -----

  /** The attempt at position j came at least the backoff after the one before it. */
  ghost predicate Spaced(log: seq<Attempt>, j: nat, cfg: Config)
    requires j < |log|
  {
    var last := LastAt(log[..j], log[j].id);
    last != 0 ==> log[j].at - last >= Backoff(Failures(log[..j], log[j].id), cfg)
  }

  ghost predicate SpacingInv(s: State, cfg: Config) {
    && (forall j :: 0 <= j < |s.log| ==> Spaced(s.log, j, cfg))
    && (s.flush.Some? && s.flush.value.calling && s.flush.value.batch != [] ==>
          !BackingOff(s.flush.value.batch[0], s.flush.value.now, cfg))
  }

  lemma AnswerKeepsSpacing(s: State, f: Flush, o: Outcome, cfg: Config)
    requires SpacingInv(s, cfg) && AttemptInv(s, cfg) && s.flush == Some(f) && f.batch != [] && f.calling
    ensures SpacingInv(AnswerStep(s, f, o, cfg), cfg)
  {
    var log, m := s.log, f.batch[0];
    var l := log + [Attempt(m.id, o == Accepted, f.now)];
    assert LiveItem(m, log, cfg);
    forall j | 0 <= j < |l| ensures Spaced(l, j, cfg) {
      if j < |log| {
        assert Spaced(log, j, cfg) && l[..j] == log[..j];
      } else {
        assert l[..j] == log;
      }
    }
  }

  lemma StepKeepsSpacing(s: State, e: Event, cfg: Config)
    requires SpacingInv(s, cfg) && AttemptInv(s, cfg)
    ensures SpacingInv(Step(s, e, cfg), cfg)
  {
    if e.Answer? && Step(s, e, cfg) != s {
      AnswerKeepsSpacing(s, s.flush.value, e.outcome, cfg);
    }
  }

  lemma {:induction false} RunKeepsSpacing(es: seq<Event>, cfg: Config)
    requires cfg.retryAttempts >= 1
    ensures SpacingInv(Run(es, cfg), cfg)
  {
    if es != [] {
      RunKeepsSpacing(es[..|es| - 1], cfg);
      RunKeepsAttempts(es[..|es| - 1], cfg);
      StepKeepsSpacing(Run(es[..|es| - 1], cfg), es[|es| - 1], cfg);
    }
  }

  lemma {:induction false} LastAtIs(log: seq<Attempt>, i: nat)
    requires i < |log| && forall k :: i < k < |log| ==> log[k].id != log[i].id
    ensures LastAt(log, log[i].id) == log[i].at
  {
    if i < |log| - 1 { LastAtIs(log[..|log| - 1], i); }
  }

  /** Exponential backoff over every run: of two consecutive attempts at one message the
      second comes at least retryDelay * 2^min(failures, 6) after the first. */
  lemma RetriesBackOff(es: seq<Event>, cfg: Config, i: nat, j: nat)
    requires cfg.retryAttempts >= 1 && i < j < |Run(es, cfg).log| && Run(es, cfg).log[i].at != 0
    requires var log := Run(es, cfg).log;
             log[i].id == log[j].id && forall k :: i < k < j ==> log[k].id != log[j].id
    ensures var log := Run(es, cfg).log;
            log[j].at - log[i].at >= Backoff(Failures(log[..j], log[j].id), cfg)
  {
    RunKeepsSpacing(es, cfg);
    LastAtIs(Run(es, cfg).log[..j], i);
    assert Spaced(Run(es, cfg).log, j, cfg);
  }

  // ----- metrics -----

  /** How many finished deliveries went well, or did not. */
  function CountOutcome(log: seq<Attempt>, ok: bool): nat {
    if log == [] then 0 else CountOutcome(log[..|log| - 1], ok) + (if log[|log| - 1].ok == ok then 1 else 0)
  }

  lemma CountOutcomeSnoc(log: seq<Attempt>, a: Attempt, ok: bool)
    ensures CountOutcome(log + [a], ok) == CountOutcome(log, ok) + (if a.ok == ok then 1 else 0)
  {
    assert (log + [a])[..|log|] == log;
  }

  ghost predicate MetricsInv(s: State) {
    && s.metrics.delivered == |s.delivered| == CountOutcome(s.log, true)
    && s.metrics.failed == CountOutcome(s.log, false)
    && s.metrics.deadLettered == |s.deadLetter|
  }

  lemma AnswerKeepsMetrics(s: State, f: Flush, o: Outcome, cfg: Config)
    requires MetricsInv(s) && f.batch != []
    ensures MetricsInv(AnswerStep(s, f, o, cfg))
  {
    var a := Attempt(f.batch[0].id, o == Accepted, f.now);
    CountOutcomeSnoc(s.log, a, true);
    CountOutcomeSnoc(s.log, a, false);
  }

  lemma StepKeepsMetrics(s: State, e: Event, cfg: Config)
    requires MetricsInv(s)
    ensures MetricsInv(Step(s, e, cfg))
  {
    if e.Answer? && Step(s, e, cfg) != s { AnswerKeepsMetrics(s, s.flush.value, e.outcome, cfg); }
  }

  /** The metrics count what happened: messages delivered, which is deliveries that went
      well, deliveries that failed, and dead letters. */
  lemma {:induction false} MetricsMatch(es: seq<Event>, cfg: Config)
    ensures MetricsInv(Run(es, cfg))
  {
    if es != [] {
      MetricsMatch(es[..|es| - 1], cfg);
      StepKeepsMetrics(Run(es[..|es| - 1], cfg), es[|es| - 1], cfg);
    }
  }

  // ----- order -----

  /** Messages of one rank stand in enqueue order. */
  ghost predicate InOrder(q: seq<Item>) {
    forall i, j :: 0 <= i < j < |q| && Rank(q[i].priority) == Rank(q[j].priority) ==> q[i].id < q[j].id
  }

  /** All ids of `a` are smaller than all ids of `b`. */
  ghost predicate Older(a: seq<Item>, b: seq<Item>) {
    forall i, j :: 0 <= i < |a| && 0 <= j < |b| ==> a[i].id < b[j].id
  }

  ghost predicate Below(q: seq<Item>, n: nat) {
    forall i :: 0 <= i < |q| ==> q[i].id < n
  }

  /** What a flush holds is older than what is queued, and both are in order. */
  ghost predicate Ordered(flushed: seq<Item>, q: seq<Item>, n: nat) {
    InOrder(flushed) && InOrder(q) && Older(flushed, q) && Below(flushed, n) && Below(q, n)
  }

  ghost predicate OrderInv(s: State) {
    Ordered(Remaining(s) + Batch(s), s.queue, s.metrics.enqueued)
  }

  /** Every message of m's rank is older than m. */
  ghost predicate Newest(q: seq<Item>, m: Item) {
    forall i :: 0 <= i < |q| && Rank(q[i].priority) == Rank(m.priority) ==> q[i].id < m.id
  }

  lemma OrderSnoc(q: seq<Item>, m: Item)
    requires InOrder(q) && Newest(q, m)
    ensures InOrder(q + [m])
  {
  }

  lemma InsertKeepsNewest(q: seq<Item>, m: Item, l: Item)
    requires Newest(q, l) && Rank(m.priority) != Rank(l.priority)
    ensures Newest(Insert(Key, q, m), l)
  {
    var r := Insert(Key, q, m);
    InsertElements(Key, q, m);
    forall i | 0 <= i < |r| && Rank(r[i].priority) == Rank(l.priority) ensures r[i].id < l.id {
      assert r[i] in multiset(r);
      var k :| 0 <= k < |q| && q[k] == r[i];
    }
  }

  lemma {:induction false} InsertKeepsOrder(q: seq<Item>, m: Item)
    requires InOrder(q) && Newest(q, m)
    ensures InOrder(Insert(Key, q, m))
  {
    if q == [] || Key(q[|q| - 1]) <= Key(m) {
      OrderSnoc(q, m);
    } else {
      var p, l := q[..|q| - 1], q[|q| - 1];
      InsertKeepsOrder(p, m);
      InsertKeepsNewest(p, m, l);
      OrderSnoc(Insert(Key, p, m), l);
    }
  }

  lemma SortKeepsNewest(q: seq<Item>, m: Item)
    requires Newest(q, m)
    ensures Newest(Sort(Key, q), m)
  {
    SortSorts(Key, q);
    var r := Sort(Key, q);
    forall i | 0 <= i < |r| && Rank(r[i].priority) == Rank(m.priority) ensures r[i].id < m.id {
      assert r[i] in multiset(r);
      var k :| 0 <= k < |q| && q[k] == r[i];
    }
  }

  lemma {:induction false} SortKeepsOrder(q: seq<Item>)
    requires InOrder(q)
    ensures InOrder(Sort(Key, q))
  {
    if q != [] {
      var p, l := q[..|q| - 1], q[|q| - 1];
      SortKeepsOrder(p);
      SortKeepsNewest(p, l);
      InsertKeepsOrder(Sort(Key, p), l);
    }
  }

  lemma SortKeepsIds(a: seq<Item>, q: seq<Item>, n: nat)
    requires Older(a, q) && Below(q, n)
    ensures Older(a, Sort(Key, q)) && Below(Sort(Key, q), n)
  {
    SortSorts(Key, q);
    var r := Sort(Key, q);
    forall i | 0 <= i < |r| ensures r[i] in q { assert r[i] in multiset(r); }
  }

  lemma WithoutKeepsOrder(q: seq<Item>, i: nat)
    requires i < |q| && InOrder(q)
    ensures InOrder(Without(q, i))
    ensures forall k :: 0 <= k < |q| - 1 ==> Without(q, i)[k] == q[if k < i then k else k + 1]
  {
  }

  /** Dropping the victim of a full queue. */
  lemma DropKeepsOrder(flushed: seq<Item>, q: seq<Item>, i: nat, n: nat)
    requires Ordered(flushed, q, n) && i < |q|
    ensures Ordered(flushed, Without(q, i), n)
  {
    WithoutKeepsOrder(q, i);
  }

  /** Appending the newest message and sorting. */
  lemma AppendKeepsOrder(flushed: seq<Item>, q: seq<Item>, p: Priority, n: nat)
    requires Ordered(flushed, q, n)
    ensures Ordered(flushed, Sort(Key, q + [Item(n, p, 0, 0)]), n + 1)
  {
    var grown := q + [Item(n, p, 0, 0)];
    SortKeepsOrder(grown);
    SortKeepsIds(flushed, grown, n + 1);
  }

  lemma EnqueueKeepsOrder(s: State, p: Priority, cfg: Config)
    requires OrderInv(s)
    ensures OrderInv(EnqueueStep(s, p, cfg))
  {
    var flushed, n := Remaining(s) + Batch(s), s.metrics.enqueued;
    if Full(s.queue, cfg) {
      DropKeepsOrder(flushed, s.queue, Victim(s.queue), n);
      AppendKeepsOrder(flushed, Without(s.queue, Victim(s.queue)), p, n);
    } else {
      AppendKeepsOrder(flushed, s.queue, p, n);
    }
  }

  /** A flush takes the whole queue. */
  lemma TakeAllKeepsOrder(q: seq<Item>, n: nat)
    requires Ordered([] + [], q, n)
    ensures Ordered([] + q, [], n)
  {
    assert [] + q == q;
  }

  /** A flush puts back what is left before what has arrived. */
  lemma JoinKeepsOrder(a: seq<Item>, b: seq<Item>, n: nat)
    requires Ordered(a + [], b, n)
    ensures Ordered([] + [], a + b, n)
  {
    assert a + [] == a;
  }

  /** What the flush holds is the same, up to attempts, or one message less. */
  ghost predicate FlushShrinks(a: seq<Item>, b: seq<Item>) {
    || (|b| == |a| && forall i :: 0 <= i < |a| ==> b[i].id == a[i].id && b[i].priority == a[i].priority)
    || exists i :: 0 <= i < |a| && b == Without(a, i)
  }

  lemma ShrinkKeepsOrder(a: seq<Item>, b: seq<Item>, q: seq<Item>, n: nat)
    requires FlushShrinks(a, b) && Ordered(a, q, n)
    ensures Ordered(b, q, n)
  {
    if |b| != |a| {
      var i :| 0 <= i < |a| && b == Without(a, i);
      WithoutKeepsOrder(a, i);
    }
  }

  lemma HeadGone(a: seq<Item>, b: seq<Item>)
    requires b != []
    ensures FlushShrinks(a + b, a + b[1..])
  {
    assert Without(a + b, |a|) == a + b[1..];
  }

  lemma HeadMoved(a: seq<Item>, b: seq<Item>, m: Item)
    requires b != [] && m.id == b[0].id && m.priority == b[0].priority
    ensures FlushShrinks(a + b, (a + [m]) + b[1..])
  {
  }

  lemma AnswerKeepsOrder(s: State, f: Flush, o: Outcome, cfg: Config)
    requires OrderInv(s) && s.flush == Some(f) && f.batch != []
    ensures OrderInv(AnswerStep(s, f, o, cfg))
  {
    var t := AnswerStep(s, f, o, cfg);
    HeadGone(f.remaining, f.batch);
    HeadMoved(f.remaining, f.batch, f.batch[0].(attempts := f.batch[0].attempts + 1, lastAttempt := f.now));
    ShrinkKeepsOrder(f.remaining + f.batch, Remaining(t) + Batch(t), s.queue, s.metrics.enqueued);
  }

  lemma NextKeepsOrder(s: State, f: Flush, now: nat, cfg: Config)
    requires OrderInv(s) && s.flush == Some(f) && f.batch != []
    ensures OrderInv(NextStep(s, f, now, cfg))
  {
    var t := NextStep(s, f, now, cfg);
    assert Remaining(t) + Batch(t) == f.remaining + f.batch;
  }

  lemma TakeKeepsOrder(flushed: seq<Item>, q: seq<Item>, n: nat)
    requires Ordered(flushed, q, n) && q != []
    ensures Ordered(flushed, q[1..], n)
  {
  }

  lemma StepKeepsOrder(s: State, e: Event, cfg: Config)
    requires OrderInv(s)
    ensures OrderInv(Step(s, e, cfg))
  {
    if Step(s, e, cfg) != s {
      match e
      case Enqueue(p) => EnqueueKeepsOrder(s, p, cfg);
      case Dequeue => TakeKeepsOrder(Remaining(s) + Batch(s), s.queue, s.metrics.enqueued);
      case BeginFlush => TakeAllKeepsOrder(s.queue, s.metrics.enqueued);
      case NextItem(now) => NextKeepsOrder(s, s.flush.value, now, cfg);
      case Answer(o) => AnswerKeepsOrder(s, s.flush.value, o, cfg);
      case EndFlush => JoinKeepsOrder(s.flush.value.remaining, s.queue, s.metrics.enqueued);
      case Destroy =>
    }
  }

  lemma {:induction false} RunKeepsOrder(es: seq<Event>, cfg: Config)
    ensures OrderInv(Run(es, cfg))
  {
    if es != [] {
      RunKeepsOrder(es[..|es| - 1], cfg);
      StepKeepsOrder(Run(es[..|es| - 1], cfg), es[|es| - 1], cfg);
    }
  }

  /** Across every run the pending messages of one rank, left over or in the batch or
      queued, stay in enqueue order. */
  lemma FirstInFirstOut(es: seq<Event>, cfg: Config)
    ensures var s := Run(es, cfg); InOrder(Remaining(s) + Batch(s) + s.queue)
  {
    RunKeepsOrder(es, cfg);
  }

  /** After each enqueue the queue is sorted by priority, whatever a flush put back. */
  lemma SortedAfterEnqueue(es: seq<Event>, p: Priority, cfg: Config)
    requires !Run(es, cfg).destroyed
    ensures Sorted(Key, Run(es + [Enqueue(p)], cfg).queue)
  {
    var s := Run(es, cfg);
    assert (es + [Enqueue(p)])[..|es|] == es;
    var kept := Kept(s.queue, cfg);
    SortSorts(Key, kept + [Item(s.metrics.enqueued, p, 0, 0)]);
  }

  lemma VictimIsOldest(q: seq<Item>, m: Item)
    requires InOrder(q) && q != [] && m in q
    ensures var v := q[Victim(q)];
            (m != v && m.priority == v.priority ==> v.id < m.id) && (!Droppable(v) ==> !Droppable(m))
  {
    var i := Victim(q);
    var k :| 0 <= k < |q| && q[k] == m;
    if m != q[i] && m.priority == q[i].priority { assert i < k; }
  }

  // ----- what a full queue drops -----

  /** An enqueue to a full queue drops one message: a critical, high or unknown one only
      when no normal or low one is queued, and always the oldest of its priority. */
  lemma DropsOldestOfItsPriority(es: seq<Event>, p: Priority, cfg: Config, m: Item)
    requires var s := Run(es, cfg); !s.destroyed && m in s.queue && |s.queue| >= cfg.maxSize
    ensures var s, t := Run(es, cfg), Run(es + [Enqueue(p)], cfg);
            var victim := s.queue[Victim(s.queue)];
            && t.dropped == s.dropped + [victim]
            && (!Droppable(victim) ==> !Droppable(m))
            && (m != victim && m.priority == victim.priority ==> victim.id < m.id)
  {
    assert (es + [Enqueue(p)])[..|es|] == es;
    RunKeepsOrder(es, cfg);
    VictimIsOldest(Run(es, cfg).queue, m);
  }

  predicate HasNormal(q: seq<Item>) { exists i :: 0 <= i < |q| && q[i].priority.Normal? }
  predicate HasLow(q: seq<Item>) { exists i :: 0 <= i < |q| && q[i].priority.Low? }

  /** No message is less urgent than the one dropped. */
  ghost predicate DropsLeastUrgent(q: seq<Item>)
    requires q != []
  {
    forall i :: 0 <= i < |q| ==> Rank(q[i].priority) <= Rank(q[Victim(q)].priority)
  }

  /** A queue sorted by priority drops a least urgent message if and only if it has not both
      a normal and a low one, and, when it has neither, all its messages are of one rank. */
  lemma DropsLeastUrgentIff(q: seq<Item>)
    requires q != [] && Sorted(Key, q)
    ensures DropsLeastUrgent(q)
            <==> if HasNormal(q) then !HasLow(q)
                 else HasLow(q) || forall i :: 0 <= i < |q| ==> Rank(q[i].priority) == Rank(q[0].priority)
  {
    var v := Victim(q);
    forall i, j | 0 <= i < j < |q| ensures Rank(q[i].priority) <= Rank(q[j].priority) {
      assert Key(q[i]) <= Key(q[j]);
    }
    if FirstDroppable(q) == |q| { assert v == 0 && !HasNormal(q) && !HasLow(q); }
    if q[v].priority.Normal? { assert HasNormal(q); }
    if q[v].priority.Low? { assert HasLow(q); }
  }

  /** The documented rule: the oldest of the least urgent messages goes. */
  ghost predicate DropsOldestLeastUrgent(q: seq<Item>)
    requires q != []
  {
    forall i :: 0 <= i < |q| && i != Victim(q) ==> Earlier(q[Victim(q)], q[i])
  }

  predicate Earlier(v: Item, m: Item) {
    Rank(m.priority) < Rank(v.priority) || (Rank(m.priority) == Rank(v.priority) && v.id < m.id)
  }

  /** In terms of the first normal or low message: there is none and the head is of the
      lowest rank, or it is low, or it is normal and neither a low one is queued nor one of
      unknown priority before it. */
  predicate RuleHolds(q: seq<Item>)
    requires q != []
  {
    var f := FirstDroppable(q);
    if f == |q| then forall i :: 0 <= i < |q| ==> Rank(q[i].priority) <= Rank(q[0].priority)
    else q[f].priority.Low? || (!HasLow(q) && forall i :: 0 <= i < f ==> !q[i].priority.Other?)
  }

  lemma RuleIff(q: seq<Item>)
    requires q != [] && InOrder(q)
    ensures DropsOldestLeastUrgent(q) <==> RuleHolds(q)
  {
    var f, v := FirstDroppable(q), Victim(q);
    if DropsOldestLeastUrgent(q) && f < |q| && q[f].priority.Normal? {
      forall i | 0 <= i < |q| ensures !q[i].priority.Low? { if i != v { assert Earlier(q[v], q[i]); } }
      forall i | 0 <= i < f ensures !q[i].priority.Other? { assert Earlier(q[v], q[i]); }
    }
    if DropsOldestLeastUrgent(q) && f == |q| {
      forall i | 0 <= i < |q| ensures Rank(q[i].priority) <= Rank(q[0].priority) {
        if i != v { assert Earlier(q[v], q[i]); }
      }
    }
    if RuleHolds(q) { RuleSuffices(q); }
  }

  lemma RuleSuffices(q: seq<Item>)
    requires q != [] && InOrder(q) && RuleHolds(q)
    ensures DropsOldestLeastUrgent(q)
  {
    var f, v := FirstDroppable(q), Victim(q);
    forall i | 0 <= i < |q| && i != v ensures Earlier(q[v], q[i]) {
      if f < |q| && q[f].priority.Normal? { assert !q[i].priority.Low?; }
      if i < v { assert !Droppable(q[i]); }
    }
  }

  /** Over every run, whatever flushes have put back: the full queue follows the documented
      rule if and only if `RuleHolds`. */
  lemma DocumentedDropIff(es: seq<Event>, p: Priority, cfg: Config)
    requires var s := Run(es, cfg); !s.destroyed && Full(s.queue, cfg)
    ensures var s, t := Run(es, cfg), Run(es + [Enqueue(p)], cfg);
            && t.dropped == s.dropped + [s.queue[Victim(s.queue)]]
            && (DropsOldestLeastUrgent(s.queue) <==> RuleHolds(s.queue))
  {
    assert (es + [Enqueue(p)])[..|es|] == es;
    RunKeepsOrder(es, cfg);
    RuleIff(Run(es, cfg).queue);
  }

  // ----- three runs in which the documented rule fails -----

  const TWO := Config(2, 3, 1000)

  function First(p: Priority): Item { Item(0, p, 0, 0) }
  function Second(p: Priority): Item { Item(1, p, 0, 0) }

  lemma SortTwo(a: Item, b: Item)
    requires Key(a) <= Key(b)
    ensures Sort(Key, [] + [a]) == [a] && Sort(Key, [a] + [b]) == [a, b]
  {
    assert [] + [a] == [a] && [a][..0] == [];
    SortAfterAppend(Key, [], a);
    SortAfterAppend(Key, [a], b);
    assert [a] + [b] == [a, b];
  }

  lemma RunSnoc(es: seq<Event>, e: Event, cfg: Config)
    ensures Run(es + [e], cfg) == Step(Run(es, cfg), e, cfg)
  {
    assert (es + [e])[..|es|] == es;
  }

  lemma TwoQueued(p: Priority, q: Priority)
    requires Rank(p) <= Rank(q)
    ensures var s := Run([] + [Enqueue(p)] + [Enqueue(q)], TWO);
            s.queue == [First(p), Second(q)] && s.dropped == [] && !s.destroyed
  {
    SortTwo(First(p), Second(q));
    RunSnoc([], Enqueue(p), TWO);
    assert Run([] + [Enqueue(p)], TWO).queue == [First(p)];
    RunSnoc([] + [Enqueue(p)], Enqueue(q), TWO);
  }

  /** The third enqueue drops one of two queued messages. */
  lemma ThirdDrops(p: Priority, q: Priority, r: Priority)
    requires Rank(p) <= Rank(q)
    ensures Run([] + [Enqueue(p)] + [Enqueue(q)] + [Enqueue(r)], TWO).dropped
            == if !Droppable(First(p)) && Droppable(Second(q)) then [Second(q)] else [First(p)]
  {
    TwoQueued(p, q);
    RunSnoc([] + [Enqueue(p)] + [Enqueue(q)], Enqueue(r), TWO);
    var queue := [First(p), Second(q)];
    assert queue[0] == First(p) && queue[1..] == [Second(q)] && queue[1] == Second(q);
  }

  /** A critical message goes before a high one. */
  lemma CriticalGoesBeforeHigh()
    ensures Run([] + [Enqueue(Critical)] + [Enqueue(High)] + [Enqueue(Low)], TWO).dropped == [First(Critical)]
  {
    ThirdDrops(Critical, High, Low);
  }

  /** A critical message goes before one of unknown priority, though that ranks as normal. */
  lemma CriticalGoesBeforeUnknown()
    ensures Run([] + [Enqueue(Critical)] + [Enqueue(Other("info"))] + [Enqueue(Low)], TWO).dropped == [First(Critical)]
  {
    ThirdDrops(Critical, Other("info"), Low);
  }

  /** A normal message goes before a low one. */
  lemma NormalGoesBeforeLow()
    ensures Run([] + [Enqueue(Normal)] + [Enqueue(Low)] + [Enqueue(Low)], TWO).dropped == [First(Normal)]
  {
    ThirdDrops(Normal, Low, Low);
  }

  // ----- what each operation does -----

  lemma UrgencyOrder(name: string)
    ensures Rank(Critical) < Rank(High) < Rank(Normal) < Rank(Low) && Rank(Other(name)) == Rank(Normal)
  {
  }

  /** The wait is the delay, doubled for each failure, up to 64 times. */
  lemma BackoffDoubles(n: nat, cfg: Config)
    ensures Backoff(0, cfg) == cfg.retryDelay
    ensures n < 6 ==> Backoff(n + 1, cfg) == 2 * Backoff(n, cfg)
    ensures n >= 6 ==> Backoff(n, cfg) == 64 * cfg.retryDelay
  {
    assert Power2(6) == 2 * Power2(5) == 4 * Power2(4) == 8 * Power2(3) == 16 * Power2(2) == 64 * Power2(0);
    if n < 6 { PowerTimes(cfg.retryDelay, n); }
  }

  lemma PowerTimes(d: nat, n: nat)
    ensures d * Power2(n + 1) == 2 * (d * Power2(n))
  {
  }

  /** An enqueue adds its message and nothing else, and drops one exactly from a queue that
      has reached its size. */
  lemma EnqueueAddsOne(es: seq<Event>, p: Priority, cfg: Config)
    requires !Run(es, cfg).destroyed
    ensures var s, t := Run(es, cfg), Run(es + [Enqueue(p)], cfg);
            var added := Item(s.metrics.enqueued, p, 0, 0);
            && t.metrics == s.metrics.(enqueued := s.metrics.enqueued + 1)
            && multiset(t.queue) + multiset(t.dropped) == multiset(s.queue) + multiset(s.dropped) + multiset{added}
            && |t.dropped| == |s.dropped| + (if |s.queue| >= cfg.maxSize && s.queue != [] then 1 else 0)
            && added in t.queue && t.flush == s.flush
  {
    var s := Run(es, cfg);
    RunSnoc(es, Enqueue(p), cfg);
    var added := Item(s.metrics.enqueued, p, 0, 0);
    SortSorts(Key, Kept(s.queue, cfg) + [added]);
    var q := Sort(Key, Kept(s.queue, cfg) + [added]);
    assert added in multiset(q);
    if Full(s.queue, cfg) { WithoutElements(s.queue, Victim(s.queue)); }
  }

  lemma WithoutElements(q: seq<Item>, i: nat)
    requires i < |q|
    ensures multiset(Without(q, i)) + multiset{q[i]} == multiset(q)
  {
    assert q == q[..i] + [q[i]] + q[i + 1..];
  }

  /** Right after an enqueue a dequeue takes the oldest of the most urgent messages. */
  lemma DequeueTakesMostUrgent(es: seq<Event>, p: Priority, cfg: Config, m: Item)
    requires !Run(es, cfg).destroyed && m in Run(es + [Enqueue(p)], cfg).queue
    ensures var s, t := Run(es + [Enqueue(p)], cfg), Run(es + [Enqueue(p)] + [Dequeue], cfg);
            && |s.queue| > 0 && t.queue == s.queue[1..] && t.dequeued == s.dequeued + [s.queue[0]]
            && (m == s.queue[0] || Rank(s.queue[0].priority) < Rank(m.priority)
                || (Rank(s.queue[0].priority) == Rank(m.priority) && s.queue[0].id < m.id))
  {
    var s := Run(es + [Enqueue(p)], cfg);
    SortedAfterEnqueue(es, p, cfg);
    RunKeepsOrder(es + [Enqueue(p)], cfg);
    RunSnoc(es + [Enqueue(p)], Dequeue, cfg);
    var k :| 0 <= k < |s.queue| && s.queue[k] == m;
    if k > 0 { assert Key(s.queue[0]) <= Key(s.queue[k]); }
  }

  /** In every run a flush hands its next message to `deliver` if and only if the message has
      never been attempted or its wait is over; else it leaves it for the next flush. */
  lemma VisitIff(es: seq<Event>, cfg: Config, now: nat)
    requires cfg.retryAttempts >= 1
    requires var s := Run(es, cfg); s.flush.Some? && s.flush.value.batch != [] && !s.flush.value.calling
    ensures var s, t := Run(es, cfg), Run(es + [NextItem(now)], cfg);
            var f, m := s.flush.value, s.flush.value.batch[0];
            var due := LastAt(s.log, m.id) == 0 || now - LastAt(s.log, m.id) >= Backoff(Failures(s.log, m.id), cfg);
            t.flush == Some(if due then Flush(f.batch, f.remaining, true, now)
                            else Flush(f.batch[1..], f.remaining + [m], false, f.now))
  {
    var s := Run(es, cfg);
    RunKeepsAttempts(es, cfg);
    RunSnoc(es, NextItem(now), cfg);
    assert LiveItem(Batch(s)[0], s.log, cfg);
  }

  /** An answer of `deliver` about the message. */
  predicate AnswersFor(s: State, e: Event, id: nat, accepted: bool) {
    && e.Answer? && (e.outcome == Accepted <==> accepted)
    && s.flush.Some? && s.flush.value.calling && s.flush.value.batch != [] && s.flush.value.batch[0].id == id
  }

  /** How many such answers there were. */
  function AnswersFrom(es: seq<Event>, cfg: Config, id: nat, accepted: bool): nat {
    if es == [] then 0
    else
      var p, e := es[..|es| - 1], es[|es| - 1];
      AnswersFrom(p, cfg, id, accepted) + (if AnswersFor(Run(p, cfg), e, id, accepted) then 1 else 0)
  }

  lemma AnswerCounts(s: State, e: Event, cfg: Config, id: nat)
    ensures var t := Step(s, e, cfg);
            && Count(t.delivered, id) == Count(s.delivered, id) + (if AnswersFor(s, e, id, true) then 1 else 0)
            && Failures(t.log, id) == Failures(s.log, id) + (if AnswersFor(s, e, id, false) then 1 else 0)
  {
    if e.Answer? && Step(s, e, cfg) != s {
      var f := s.flush.value;
      CountSnoc(s.delivered, f.batch[0], id);
      FailuresSnoc(s.log, Attempt(f.batch[0].id, e.outcome == Accepted, f.now), id);
    }
  }

  /** In every run a message is delivered as often as `deliver` has answered true for it, and
      has failed as often as it answered false or threw. */
  lemma {:induction false} DeliveredAsAnswered(es: seq<Event>, cfg: Config, id: nat)
    ensures Count(Run(es, cfg).delivered, id) == AnswersFrom(es, cfg, id, true)
    ensures Failures(Run(es, cfg).log, id) == AnswersFrom(es, cfg, id, false)
  {
    if es != [] {
      DeliveredAsAnswered(es[..|es| - 1], cfg, id);
      AnswerCounts(Run(es[..|es| - 1], cfg), es[|es| - 1], cfg, id);
    }
  }

  /** A flush that ends puts what is left before what has arrived, and a destroyed queue takes
      no message and starts no flush. */
  lemma FlushEndsAndDestroyed(s: State, cfg: Config, p: Priority)
    ensures s.flush.Some? && s.flush.value.batch == [] ==>
              Step(s, EndFlush, cfg).queue == s.flush.value.remaining + s.queue && Step(s, EndFlush, cfg).flush.None?
    ensures Step(s, Destroy, cfg) == s.(destroyed := true, queue := [], dropped := s.dropped + s.queue)
    ensures s.destroyed ==> Step(s, Enqueue(p), cfg) == s && Step(s, BeginFlush, cfg) == s
    ensures !s.destroyed && s.flush.None? ==>
              Step(s, BeginFlush, cfg) == s.(queue := [], flush := Some(Flush(s.queue, [], false, 0)))
  {
  }
}
