/** `InstanceLock`: a Redis lease with heartbeat and token-checked release.

    Instances share one Redis key. A call has three independent moments: it is sent,
    Redis runs it, and the caller gets the reply or an error. A call that failed for
    the caller may still be run by Redis later. Time is a counter in milliseconds. */
module InstanceLock {
  import opened Options

  /** The random token of an instance, here the instance's number. */
  type Token = nat

  // ----- the Redis key -----

  datatype Entry = Entry(token: Token, expiresAt: nat)
  datatype Redis = Redis(now: nat, key: Option<Entry>)

  /** GET: an entry whose time has come is not there. */
  function Get(r: Redis): Option<Entry> {
    if r.key.Some? && r.now < r.key.value.expiresAt then r.key else None
  }

  predicate Owns(r: Redis, t: Token) {
    Get(r).Some? && Get(r).value.token == t
  }

  /** SET key value PX ttl NX. */
  function SetNx(r: Redis, t: Token, ttl: nat): (Redis, bool) {
    if Get(r).Some? then (r, false) else (r.(key := Some(Entry(t, r.now + ttl))), true)
  }

  /** The script of `refresh`. */
  function ExtendIfOwned(r: Redis, t: Token, ttl: nat): (Redis, bool) {
    if Owns(r, t) then (r.(key := Some(Entry(t, r.now + ttl))), true) else (r, false)
  }

  /** The script of `release`. */
  function DeleteIfOwned(r: Redis, t: Token): (Redis, bool) {
    if Owns(r, t) then (r.(key := None), true) else (r, false)
  }

  class RedisServer {
    var now: nat
    var key: Option<Entry>

    ghost function Abstract(): Redis reads this { Redis(now, key) }

    method SetIfAbsent(t: Token, ttl: nat) returns (ok: bool)
      modifies this
      ensures (Abstract(), ok) == SetNx(old(Abstract()), t, ttl)
    {
      if key.Some? && key.value.expiresAt <= now { key := None; }
      ok := key.None?;
      if ok { key := Some(Entry(t, now + ttl)); }
    }

    method EvalRefresh(t: Token, ttl: nat) returns (ok: bool)
      modifies this
      ensures (Abstract(), ok) == ExtendIfOwned(old(Abstract()), t, ttl)
    {
      if key.None? || key.value.expiresAt <= now { return false; }
      ok := key.value.token == t;
      if ok { key := Some(Entry(key.value.token, now + ttl)); }
    }

    method EvalDelete(t: Token) returns (ok: bool)
      modifies this
      ensures (Abstract(), ok) == DeleteIfOwned(old(Abstract()), t)
    {
      if key.None? || key.value.expiresAt <= now { return false; }
      ok := key.value.token == t;
      if ok { key := None; }
    }
  }

  // ----- the local side of an instance -----

  datatype Instance = Instance(held: bool, timer: bool)
  datatype Kind = Acquire | Refresh | Release

  /** What the caller learns: the reply, or that the call threw. */
  datatype Answer = Replied(ok: bool) | Threw

  function OnAnswer(i: Instance, kind: Kind, a: Answer): Instance {
    match kind
    case Acquire => if a == Replied(true) then Instance(true, true) else i
    case Refresh => if a == Replied(false) then i.(held := false) else i
    case Release => i.(held := false)
  }

  class LocalLock {
    var held: bool
    var timer: bool

    ghost function Abstract(): Instance reads this { Instance(held, timer) }

    constructor ()
      ensures Abstract() == Instance(false, false)
    {
      held, timer := false, false;
    }

    method FinishAcquire(a: Answer)
      modifies this
      ensures Abstract() == OnAnswer(old(Abstract()), Acquire, a)
    {
      if a == Replied(true) {
        held := true;
        if !timer { timer := true; }
      }
    }

    method FinishRefresh(a: Answer)
      modifies this
      ensures Abstract() == OnAnswer(old(Abstract()), Refresh, a)
    {
      if a.Replied? && !a.ok { held := false; }
    }

    /** `release` up to its call: stops the heartbeat, and calls Redis only while held. */
    method BeginRelease() returns (send: bool)
      modifies this
      ensures Abstract() == old(Abstract()).(timer := false) && send == old(held)
    {
      timer := false;
      send := held;
    }

    method FinishRelease(a: Answer)
      modifies this
      ensures Abstract() == OnAnswer(old(Abstract()), Release, a)
    {
      held := false;
    }
  }

  // ----- the system -----

  /** What Redis answered, and the number of the call in the order in which Redis ran them. */
  datatype Ran = Ran(ok: bool, serial: nat)

  /** A call: sent at `sentAt`; `clean` says that Redis had by then answered every release
      its sender had called; `ran` is there once Redis has run it, `answer` once the sender
      has a reply or an error. */
  datatype Command = Command(
    who: Token, kind: Kind, sentAt: nat, clean: bool, ran: Option<Ran>, answer: Option<Answer>)

  /** `executed` counts the calls Redis has run. `granted` remembers when Redis last ran a
      successful acquire or refresh of an instance, until it runs a release of it. */
  datatype State = State(
    redis: Redis, instances: seq<Instance>, commands: seq<Command>, executed: nat, granted: map<Token, nat>)

  datatype Event =
    | TryAcquire(who: Token)
    | Heartbeat(who: Token)
    | CallRelease(who: Token)
    | Execute(command: nat)
    | Reply(command: nat)
    | Fail(command: nat)
    | Elapse(ms: nat)

  function Initial(n: nat): State {
    State(Redis(0, None), seq(n, _ => Instance(false, false)), [], 0, map[])
  }

  /** A release of an instance that Redis has not been heard to have run. */
  predicate OpenRelease(c: Command, who: Token) {
    c.who == who && c.kind.Release? && !(c.answer.Some? && c.answer.value.Replied?)
  }

  predicate Clean(commands: seq<Command>, who: Token) {
    forall r :: 0 <= r < |commands| ==> !OpenRelease(commands[r], who)
  }

  function Send(s: State, who: Token, kind: Kind): State {
    s.(commands := s.commands + [Command(who, kind, s.redis.now, Clean(s.commands, who), None, None)])
  }

  function RunCommand(r: Redis, c: Command, ttl: nat): (Redis, bool) {
    match c.kind
    case Acquire => SetNx(r, c.who, ttl)
    case Refresh => ExtendIfOwned(r, c.who, ttl)
    case Release => DeleteIfOwned(r, c.who)
  }

  function ExecuteStep(s: State, k: nat, ttl: nat): State
    requires k < |s.commands|
  {
    var c := s.commands[k];
    var (r, ok) := RunCommand(s.redis, c, ttl);
    State(r, s.instances, s.commands[k := c.(ran := Some(Ran(ok, s.executed)))], s.executed + 1,
          if c.kind == Release then s.granted - {c.who}
          else if ok then s.granted[c.who := s.redis.now]
          else s.granted)
  }

  function AnswerStep(s: State, k: nat, a: Answer): State
    requires k < |s.commands|
  {
    var c := s.commands[k];
    var t := s.(commands := s.commands[k := c.(answer := Some(a))]);
    if c.who < |s.instances|
    then t.(instances := s.instances[c.who := OnAnswer(s.instances[c.who], c.kind, a)])
    else t
  }

  /** One step with lease time `ttl`; an event that cannot happen changes nothing. */
  function Step(s: State, e: Event, ttl: nat): State {
    match e
    case TryAcquire(i) => if i < |s.instances| then Send(s, i, Acquire) else s
    case Heartbeat(i) =>
      if i < |s.instances| && s.instances[i].timer && s.instances[i].held then Send(s, i, Refresh) else s
    case CallRelease(i) =>
      if i >= |s.instances| then s else
        var t := s.(instances := s.instances[i := s.instances[i].(timer := false)]);
        if s.instances[i].held then Send(t, i, Release) else t
    case Execute(k) =>
      if k < |s.commands| && s.commands[k].ran.None? then ExecuteStep(s, k, ttl) else s
    case Reply(k) =>
      if k < |s.commands| && s.commands[k].ran.Some? && s.commands[k].answer.None?
      then AnswerStep(s, k, Replied(s.commands[k].ran.value.ok)) else s
    case Fail(k) =>
      if k < |s.commands| && s.commands[k].answer.None? then AnswerStep(s, k, Threw) else s
    case Elapse(ms) => s.(redis := s.redis.(now := s.redis.now + ms))
  }

  function Run(n: nat, es: seq<Event>, ttl: nat): State {
    if es == [] then Initial(n) else Step(Run(n, es[..|es| - 1], ttl), es[|es| - 1], ttl)
  }

  /** The instance's last successful acquire or refresh is younger than the lease time
      and no release of it has run since. */
  predicate Fresh(s: State, i: Token, ttl: nat) {
    i in s.granted && s.redis.now < s.granted[i] + ttl
  }

  ghost predicate Inv(s: State, ttl: nat) {
    && (forall i :: i in s.granted ==> s.granted[i] <= s.redis.now)
    && (forall i :: Fresh(s, i, ttl) ==> s.redis.key == Some(Entry(i, s.granted[i] + ttl)))
    && (Get(s.redis).Some? ==>
          var e := Get(s.redis).value;
          e.token in s.granted && e.expiresAt == s.granted[e.token] + ttl)
  }

  lemma ExecuteKeepsInv(s: State, k: nat, ttl: nat)
    requires Inv(s, ttl) && k < |s.commands|
    ensures Inv(ExecuteStep(s, k, ttl), ttl)
  {
    var c, t := s.commands[k], ExecuteStep(s, k, ttl);
    forall i | Fresh(t, i, ttl) ensures t.redis.key == Some(Entry(i, t.granted[i] + ttl)) {
      if i != c.who { assert Fresh(s, i, ttl); }
      else if !RunCommand(s.redis, c, ttl).1 { assert Fresh(s, i, ttl); }
    }
  }

  lemma StepKeepsInv(s: State, e: Event, ttl: nat)
    requires Inv(s, ttl)
    ensures Inv(Step(s, e, ttl), ttl)
  {
    var t := Step(s, e, ttl);
    if e.Execute? {
      if t != s { ExecuteKeepsInv(s, e.command, ttl); }
    } else {
      assert t.granted == s.granted && t.redis.key == s.redis.key && t.redis.now >= s.redis.now;
      forall i | Fresh(t, i, ttl) ensures t.redis.key == Some(Entry(i, t.granted[i] + ttl)) {
        assert Fresh(s, i, ttl);
      }
    }
  }

  lemma {:induction false} RunKeepsInv(n: nat, es: seq<Event>, ttl: nat)
    ensures Inv(Run(n, es, ttl), ttl)
  {
    if es != [] {
      RunKeepsInv(n, es[..|es| - 1], ttl);
      StepKeepsInv(Run(n, es[..|es| - 1], ttl), es[|es| - 1], ttl);
    }
  }

  /** A fresh instance owns the key, to the millisecond at which its lease ends; and
      whoever owns the key is fresh. */
  lemma FreshIffOwner(n: nat, es: seq<Event>, ttl: nat, i: Token)
    ensures Fresh(Run(n, es, ttl), i, ttl) <==> Owns(Run(n, es, ttl).redis, i)
    ensures Fresh(Run(n, es, ttl), i, ttl) ==>
              Get(Run(n, es, ttl).redis) == Some(Entry(i, Run(n, es, ttl).granted[i] + ttl))
  {
    RunKeepsInv(n, es, ttl);
  }

  /** Two fresh instances never coexist. */
  lemma Exclusion(n: nat, es: seq<Event>, ttl: nat, i: Token, j: Token)
    requires Fresh(Run(n, es, ttl), i, ttl) && Fresh(Run(n, es, ttl), j, ttl)
    ensures i == j
  {
    RunKeepsInv(n, es, ttl);
  }

  /** No call of one instance extends, shortens or deletes the lock of another. */
  lemma OthersLockUntouched(s: State, k: nat, ttl: nat, j: Token)
    requires k < |s.commands| && s.commands[k].who != j && Owns(s.redis, j)
    ensures Step(s, Execute(k), ttl).redis == s.redis
  {
  }

  predicate ReleaseOf(s: State, e: Event, j: Token) {
    && e.Execute? && e.command < |s.commands|
    && s.commands[e.command].who == j && s.commands[e.command].kind.Release? && s.commands[e.command].ran.None?
  }

  lemma ClockAdvances(s: State, e: Event, ttl: nat)
    ensures Step(s, e, ttl).redis.now >= s.redis.now
  {
  }

  lemma LeaseStep(s: State, e: Event, ttl: nat, j: Token)
    requires Inv(s, ttl) && Owns(s.redis, j) && !ReleaseOf(s, e, j)
    ensures var r := Step(s, e, ttl).redis;
            r.now < Get(s.redis).value.expiresAt ==>
              Owns(r, j) && Get(r).value.expiresAt >= Get(s.redis).value.expiresAt
  {
    if e.Execute? && e.command < |s.commands| && s.commands[e.command].ran.None? {
      if s.commands[e.command].who != j {
        OthersLockUntouched(s, e.command, ttl, j);
      }
    }
  }

  /** A lease survives every run in which Redis runs no release of its owner, until its
      time is up, and it is never shortened. */
  lemma {:induction false} LeaseSurvives(n: nat, es: seq<Event>, ttl: nat, m: nat, j: Token)
    requires m <= |es| && Owns(Run(n, es[..m], ttl).redis, j)
    requires forall k :: m <= k < |es| ==> !ReleaseOf(Run(n, es[..k], ttl), es[k], j)
    requires Run(n, es, ttl).redis.now < Get(Run(n, es[..m], ttl).redis).value.expiresAt
    ensures Owns(Run(n, es, ttl).redis, j)
    ensures Get(Run(n, es, ttl).redis).value.expiresAt >= Get(Run(n, es[..m], ttl).redis).value.expiresAt
  {
    if m == |es| {
      assert es[..m] == es;
    } else {
      var es' := es[..|es| - 1];
      assert es'[..m] == es[..m];
      forall k | m <= k < |es'| ensures !ReleaseOf(Run(n, es'[..k], ttl), es'[k], j) {
        assert es'[..k] == es[..k];
      }
      var s := Run(n, es', ttl);
      ClockAdvances(s, es[|es| - 1], ttl);
      LeaseSurvives(n, es', ttl, m, j);
      RunKeepsInv(n, es', ttl);
      LeaseStep(s, es[|es| - 1], ttl, j);
    }
  }

  predicate Won(s: State, i: Token, k: nat) {
    && k < |s.commands| && s.commands[k].who == i && s.commands[k].kind.Acquire?
    && s.commands[k].ran.Some? && s.commands[k].ran.value.ok && s.commands[k].answer == Some(Replied(true))
  }

  /** Only Redis's word makes an instance believe it is the active one: an instance is
      held only after a successful acquire of it was run and answered. */
  lemma {:induction false} HeldWasGranted(n: nat, es: seq<Event>, ttl: nat, i: Token)
    requires i < |Run(n, es, ttl).instances| && Run(n, es, ttl).instances[i].held
    ensures exists k: nat :: Won(Run(n, es, ttl), i, k)
  {
    assert es != [];
    var es', e := es[..|es| - 1], es[|es| - 1];
    var s, t := Run(n, es', ttl), Run(n, es, ttl);
    if s.instances[i].held {
      HeldWasGranted(n, es', ttl, i);
      var k: nat :| Won(s, i, k);
      assert Won(t, i, k);
    } else {
      assert Won(t, i, e.command);
    }
  }

  /** A refresh that Redis runs after the lease was lost makes the instance give up `held`
      when its reply arrives. */
  lemma LostLeaseIsNoticed(s: State, k: nat, ttl: nat)
    requires k < |s.commands| && s.commands[k].who < |s.instances|
    requires s.commands[k].kind.Refresh? && s.commands[k].ran.None? && s.commands[k].answer.None?
    requires !Owns(s.redis, s.commands[k].who)
    ensures var t := Step(Step(s, Execute(k), ttl), Reply(k), ttl);
            && t.instances == s.instances[s.commands[k].who := s.instances[s.commands[k].who].(held := false)]
            && t.redis == s.redis
  {
    var s1 := Step(s, Execute(k), ttl);
    assert s1.commands[k] == s.commands[k].(ran := Some(Ran(false, s.executed)));
  }

  lemma RunSnoc(n: nat, es: seq<Event>, e: Event, ttl: nat)
    ensures Run(n, es + [e], ttl) == Step(Run(n, es, ttl), e, ttl)
  {
    assert (es + [e])[..|es|] == es;
  }

  // ----- what an instance can know -----

  /** An acquire or refresh of the instance that Redis has run with success. */
  predicate IsGrant(c: Command, i: Token) {
    c.who == i && !c.kind.Release? && c.ran.Some? && c.ran.value.ok
  }

  predicate ReleaseAfter(c: Command, i: Token, serial: nat) {
    c.who == i && c.kind.Release? && c.ran.Some? && c.ran.value.serial > serial
  }

  /** Redis has run no release of the instance after the grant k. */
  predicate Unreleased(commands: seq<Command>, i: Token, k: nat)
    requires k < |commands| && commands[k].ran.Some?
  {
    forall r :: 0 <= r < |commands| ==> !ReleaseAfter(commands[r], i, commands[k].ran.value.serial)
  }

  ghost predicate AnswersOk(s: State) {
    forall k :: 0 <= k < |s.commands| ==>
      var c := s.commands[k];
      && c.sentAt <= s.redis.now
      && (c.ran.Some? ==> c.ran.value.serial < s.executed)
      && (c.answer.Some? && c.answer.value.Replied? ==> c.ran.Some? && c.ran.value.ok == c.answer.value.ok)
  }

  predicate ReleasedBefore(r: Command, k: Command) {
    r.ran.Some? && (k.ran.Some? ==> r.ran.value.serial < k.ran.value.serial)
  }

  /** Releases called before a clean call was sent have been run, and before it. */
  ghost predicate CleanOk(commands: seq<Command>) {
    forall r, k :: 0 <= r < k < |commands| && commands[k].clean && commands[r].who == commands[k].who ==>
      (commands[r].kind.Release? ==> ReleasedBefore(commands[r], commands[k]))
  }

  ghost predicate GrantedSince(s: State, i: Token, at: nat) { i in s.granted && s.granted[i] >= at }

  ghost predicate GrantOk(s: State, k: nat)
    requires k < |s.commands|
  {
    var c := s.commands[k];
    IsGrant(c, c.who) && Unreleased(s.commands, c.who, k) ==> GrantedSince(s, c.who, c.sentAt)
  }

  ghost predicate LastGrant(s: State, i: Token, k: nat) {
    k < |s.commands| && IsGrant(s.commands[k], i) && Unreleased(s.commands, i, k)
  }

  ghost predicate KnowledgeInv(s: State) {
    && AnswersOk(s) && CleanOk(s.commands)
    && (forall k :: 0 <= k < |s.commands| ==> GrantOk(s, k))
    && (forall i :: i in s.granted ==> exists k: nat :: LastGrant(s, i, k))
  }

  lemma SendKeepsKnowledge(s: State, who: Token, kind: Kind)
    requires KnowledgeInv(s)
    ensures KnowledgeInv(Send(s, who, kind))
  {
    var t := Send(s, who, kind);
    forall r | 0 <= r < |s.commands| && Clean(s.commands, who)
      ensures s.commands[r].who == who && s.commands[r].kind.Release? ==> s.commands[r].ran.Some?
    {
      assert !OpenRelease(s.commands[r], who);
    }
    forall k | 0 <= k < |t.commands| ensures GrantOk(t, k) { SendKeepsGrant(s, who, kind, k); }
    forall i | i in t.granted ensures exists k: nat :: LastGrant(t, i, k) {
      var k: nat :| LastGrant(s, i, k);
      assert LastGrant(t, i, k);
    }
  }

  lemma SendKeepsGrant(s: State, who: Token, kind: Kind, k: nat)
    requires KnowledgeInv(s) && k <= |s.commands|
    ensures GrantOk(Send(s, who, kind), k)
  {
    var t := Send(s, who, kind);
    if k < |s.commands| && IsGrant(t.commands[k], t.commands[k].who) && Unreleased(t.commands, t.commands[k].who, k) {
      forall r | 0 <= r < |s.commands|
        ensures !ReleaseAfter(s.commands[r], s.commands[k].who, s.commands[k].ran.value.serial)
      {
        assert t.commands[r] == s.commands[r];
      }
      assert GrantOk(s, k);
    }
  }

  /** Calls keep their numbers, and what Redis has run stays run. */
  ghost predicate SameRuns(a: seq<Command>, b: seq<Command>) {
    |a| == |b| && forall k :: 0 <= k < |a| ==> a[k].(answer := None) == b[k].(answer := None)
  }

  lemma SameRunsKeepKnowledge(s: State, t: State)
    requires KnowledgeInv(s) && AnswersOk(t) && SameRuns(s.commands, t.commands) && t.granted == s.granted
    ensures KnowledgeInv(t)
  {
    forall k | 0 <= k < |t.commands|
      ensures s.commands[k].who == t.commands[k].who && s.commands[k].ran == t.commands[k].ran
      ensures s.commands[k].kind == t.commands[k].kind && s.commands[k].sentAt == t.commands[k].sentAt
      ensures s.commands[k].clean == t.commands[k].clean
    {
      assert s.commands[k].(answer := None) == t.commands[k].(answer := None);
    }
    forall i, k | 0 <= k < |t.commands| && t.commands[k].ran.Some? && Unreleased(t.commands, i, k)
      ensures Unreleased(s.commands, i, k)
    {
      forall r | 0 <= r < |s.commands| ensures !ReleaseAfter(s.commands[r], i, s.commands[k].ran.value.serial) {
        assert !ReleaseAfter(t.commands[r], i, t.commands[k].ran.value.serial);
      }
    }
    forall k | 0 <= k < |t.commands| ensures GrantOk(t, k) { assert GrantOk(s, k); }
    forall i | i in t.granted ensures exists k: nat :: LastGrant(t, i, k) {
      var k: nat :| LastGrant(s, i, k);
      assert LastGrant(t, i, k);
    }
  }

  lemma RunCommandKeepsClean(s: State, k: nat, ran: Ran)
    requires AnswersOk(s) && CleanOk(s.commands) && k < |s.commands| && s.commands[k].ran.None?
    requires ran.serial == s.executed
    ensures CleanOk(s.commands[k := s.commands[k].(ran := Some(ran))])
  {
  }

  lemma ExecuteKeepsGrant(s: State, k: nat, ttl: nat, j: nat)
    requires KnowledgeInv(s) && k < |s.commands| && s.commands[k].ran.None? && j < |s.commands|
    ensures GrantOk(ExecuteStep(s, k, ttl), j)
  {
    var t, i := ExecuteStep(s, k, ttl), s.commands[j].who;
    if IsGrant(t.commands[j], i) && Unreleased(t.commands, i, j) && j != k {
      forall r | 0 <= r < |s.commands| ensures !ReleaseAfter(s.commands[r], i, s.commands[j].ran.value.serial) {
        if r != k { assert !ReleaseAfter(t.commands[r], i, t.commands[j].ran.value.serial); }
      }
      assert GrantOk(s, j);
      assert !ReleaseAfter(t.commands[k], i, t.commands[j].ran.value.serial);
    }
  }

  lemma ExecuteKeepsLast(s: State, k: nat, ttl: nat, i: Token) returns (j: nat)
    requires KnowledgeInv(s) && k < |s.commands| && s.commands[k].ran.None? && i in ExecuteStep(s, k, ttl).granted
    ensures LastGrant(ExecuteStep(s, k, ttl), i, j)
  {
    var c, t := s.commands[k], ExecuteStep(s, k, ttl);
    if c.who == i && !c.kind.Release? && RunCommand(s.redis, c, ttl).1 {
      j := k;
    } else {
      j :| LastGrant(s, i, j);
    }
    forall r | 0 <= r < |t.commands| ensures !ReleaseAfter(t.commands[r], i, t.commands[j].ran.value.serial) {
      if r != k && j != k { assert !ReleaseAfter(s.commands[r], i, s.commands[j].ran.value.serial); }
    }
  }

  lemma ExecuteKeepsKnowledge(s: State, k: nat, ttl: nat)
    requires KnowledgeInv(s) && k < |s.commands| && s.commands[k].ran.None?
    ensures KnowledgeInv(ExecuteStep(s, k, ttl))
  {
    var t := ExecuteStep(s, k, ttl);
    RunCommandKeepsClean(s, k, t.commands[k].ran.value);
    forall j | 0 <= j < |t.commands| ensures GrantOk(t, j) { ExecuteKeepsGrant(s, k, ttl, j); }
    forall i | i in t.granted ensures exists j: nat :: LastGrant(t, i, j) {
      var j := ExecuteKeepsLast(s, k, ttl, i);
    }
  }

  lemma CallReleaseKeepsKnowledge(s: State, i: Token, ttl: nat)
    requires KnowledgeInv(s) && i < |s.instances|
    ensures KnowledgeInv(Step(s, CallRelease(i), ttl))
  {
    var u := s.(instances := s.instances[i := s.instances[i].(timer := false)]);
    SameRunsKeepKnowledge(s, u);
    SendKeepsKnowledge(u, i, Release);
  }

  lemma AnswerKeepsKnowledge(s: State, e: Event, ttl: nat)
    requires KnowledgeInv(s) && (e.Reply? || e.Fail? || e.Elapse?)
    ensures KnowledgeInv(Step(s, e, ttl))
  {
    SameRunsKeepKnowledge(s, Step(s, e, ttl));
  }

  lemma StepKeepsKnowledge(s: State, e: Event, ttl: nat)
    requires KnowledgeInv(s)
    ensures KnowledgeInv(Step(s, e, ttl))
  {
    var t := Step(s, e, ttl);
    if t != s {
      match e
      case TryAcquire(i) => SendKeepsKnowledge(s, i, Acquire);
      case Heartbeat(i) => SendKeepsKnowledge(s, i, Refresh);
      case CallRelease(i) => CallReleaseKeepsKnowledge(s, i, ttl);
      case Execute(k) => ExecuteKeepsKnowledge(s, k, ttl);
      case _ => AnswerKeepsKnowledge(s, e, ttl);
    }
  }

  lemma {:induction false} RunKeepsKnowledge(n: nat, es: seq<Event>, ttl: nat)
    ensures KnowledgeInv(Run(n, es, ttl))
  {
    if es != [] {
      RunKeepsKnowledge(n, es[..|es| - 1], ttl);
      StepKeepsKnowledge(Run(n, es[..|es| - 1], ttl), es[|es| - 1], ttl);
    }
  }

  /** The instance got OK for an acquire or refresh that it sent less than a lease ago. */
  predicate RecentOk(s: State, i: Token, k: nat, ttl: nat) {
    && k < |s.commands| && s.commands[k].who == i && !s.commands[k].kind.Release?
    && s.commands[k].answer == Some(Replied(true)) && s.redis.now < s.commands[k].sentAt + ttl
  }

  /** With a recent OK, which is the last success Redis has run for it, an instance owns the
      key if and only if Redis has run no release of it since. */
  lemma RecentOkOwnsIff(n: nat, es: seq<Event>, ttl: nat, i: Token, k: nat)
    requires RecentOk(Run(n, es, ttl), i, k, ttl)
    ensures Run(n, es, ttl).commands[k].ran.Some?
    ensures Unreleased(Run(n, es, ttl).commands, i, k) ==> Owns(Run(n, es, ttl).redis, i)
    ensures (forall g :: 0 <= g < |Run(n, es, ttl).commands| && IsGrant(Run(n, es, ttl).commands[g], i) ==>
               Run(n, es, ttl).commands[g].ran.value.serial <= Run(n, es, ttl).commands[k].ran.value.serial) ==>
              (Owns(Run(n, es, ttl).redis, i) <==> Unreleased(Run(n, es, ttl).commands, i, k))
  {
    var s := Run(n, es, ttl);
    RunKeepsInv(n, es, ttl);
    RunKeepsKnowledge(n, es, ttl);
    assert GrantOk(s, k);
    if Owns(s.redis, i) {
      var g: nat :| LastGrant(s, i, g);
      if s.commands[g].ran.value.serial <= s.commands[k].ran.value.serial {
        forall r | 0 <= r < |s.commands| ensures !ReleaseAfter(s.commands[r], i, s.commands[k].ran.value.serial) {
          assert !ReleaseAfter(s.commands[r], i, s.commands[g].ran.value.serial);
        }
      }
    }
  }

  /** What an instance can see for itself: a recent OK to a call before which Redis had
      answered all its releases, and no release called since. */
  predicate KnowsItOwns(s: State, i: Token, k: nat, ttl: nat) {
    && RecentOk(s, i, k, ttl) && s.commands[k].clean
    && forall r :: k < r < |s.commands| ==> !(s.commands[r].who == i && s.commands[r].kind.Release?)
  }

  /** In every run such an instance owns the key, so there is at most one. */
  lemma KnowledgeIsOwnership(n: nat, es: seq<Event>, ttl: nat, i: Token, k: nat)
    requires KnowsItOwns(Run(n, es, ttl), i, k, ttl)
    ensures Owns(Run(n, es, ttl).redis, i)
    ensures forall j, m :: KnowsItOwns(Run(n, es, ttl), j, m, ttl) ==> j == i
  {
    var s := Run(n, es, ttl);
    KnowledgeOwns(n, es, ttl, i, k);
    forall j, m | KnowsItOwns(s, j, m, ttl) ensures j == i { KnowledgeOwns(n, es, ttl, j, m); }
  }

  lemma KnowledgeOwns(n: nat, es: seq<Event>, ttl: nat, i: Token, k: nat)
    requires KnowsItOwns(Run(n, es, ttl), i, k, ttl)
    ensures Owns(Run(n, es, ttl).redis, i)
  {
    var s := Run(n, es, ttl);
    RunKeepsKnowledge(n, es, ttl);
    RecentOkOwnsIff(n, es, ttl, i, k);
    forall r | 0 <= r < |s.commands| ensures !ReleaseAfter(s.commands[r], i, s.commands[k].ran.value.serial) {
      if r < k && s.commands[r].who == i && s.commands[r].kind.Release? { assert s.commands[r].ran.Some?; }
    }
  }

  /** An acquire of a free key, sent, run and answered. */
  lemma AcquireFree(n: nat, es: seq<Event>, i: Token, ttl: nat) returns (fs: seq<Event>)
    requires i < |Run(n, es, ttl).instances| && Get(Run(n, es, ttl).redis).None?
    ensures var s := Run(n, es, ttl);
            Run(n, fs, ttl) == State(
              Redis(s.redis.now, Some(Entry(i, s.redis.now + ttl))),
              s.instances[i := Instance(true, true)],
              s.commands + [Command(i, Acquire, s.redis.now, Clean(s.commands, i), Some(Ran(true, s.executed)),
                                    Some(Replied(true)))],
              s.executed + 1, s.granted[i := s.redis.now])
  {
    var k := |Run(n, es, ttl).commands|;
    RunSnoc(n, es, TryAcquire(i), ttl);
    RunSnoc(n, es + [TryAcquire(i)], Execute(k), ttl);
    RunSnoc(n, es + [TryAcquire(i)] + [Execute(k)], Reply(k), ttl);
    fs := es + [TryAcquire(i)] + [Execute(k)] + [Reply(k)];
  }

  /** A lease that has run out, with a release that failed for its caller still under way. */
  lemma ReleaseUnderWay(ttl: nat) returns (es: seq<Event>)
    ensures Run(2, es, ttl) ==
              State(Redis(ttl, Some(Entry(0, ttl))), [Instance(false, false), Instance(false, false)],
                    [Command(0, Acquire, 0, true, Some(Ran(true, 0)), Some(Replied(true))),
                     Command(0, Release, 0, true, None, Some(Threw))], 1, map[0 := 0])
  {
    es := AcquireFree(2, [], 0, ttl);
    RunSnoc(2, es, CallRelease(0), ttl);
    es := es + [CallRelease(0)];
    RunSnoc(2, es, Fail(1), ttl);
    es := es + [Fail(1)];
    RunSnoc(2, es, Elapse(ttl), ttl);
    es := es + [Elapse(ttl)];
    assert Run(2, es, ttl).instances == [Instance(false, false), Instance(false, false)];
  }

  /** The answers to earlier releases matter: after a release that failed for its caller the
      instance acquires again, Redis then runs the late release, which carries the same
      token, and another instance acquires. Both are held, both have an OK younger than any
      lease, and neither has called a release since. */
  lemma LateReleaseFreesNewLease(ttl: nat) returns (es: seq<Event>)
    requires ttl > 0
    ensures var s := Run(2, es, ttl);
            && s.instances == [Instance(true, true), Instance(true, true)]
            && RecentOk(s, 0, 2, ttl) && RecentOk(s, 1, 3, ttl) && |s.commands| == 4
            && s.commands[3].kind.Acquire? && !s.commands[2].clean && Owns(s.redis, 1)
  {
    es := ReleaseUnderWay(ttl);
    es := AcquireFree(2, es, 0, ttl);
    RunSnoc(2, es, Execute(1), ttl);
    es := es + [Execute(1)];
    es := AcquireFree(2, es, 1, ttl);
  }

  /** Nor is `isHeld` a proof of ownership: when the heartbeats of the first of two
      instances fail for a whole lease, both believe they are active. */
  lemma HeldMayOverlap(ttl: nat) returns (es: seq<Event>)
    ensures var s := Run(2, es, ttl);
            && s.instances == [Instance(true, true), Instance(true, true)]
            && !Fresh(s, 0, ttl) && (ttl > 0 ==> Owns(s.redis, 1))
  {
    es := AcquireFree(2, [], 0, ttl);
    RunSnoc(2, es, Elapse(ttl), ttl);
    es := es + [Elapse(ttl)];
    es := AcquireFree(2, es, 1, ttl);
  }

  // ----- what each call does -----

  /** What Redis answers to a call when it runs it, and leaves behind: an acquire takes a key
      that is not there, a refresh extends the owner's lease to a whole one from now, a
      release frees the owner's key; every other call is answered no and changes nothing
      that can be read. */
  lemma ExecutedIff(s: State, k: nat, ttl: nat)
    requires k < |s.commands| && s.commands[k].ran.None? && ttl > 0
    ensures var c, t := s.commands[k], Step(s, Execute(k), ttl);
            var lease := Some(Entry(c.who, s.redis.now + ttl));
            && t.commands[k].ran.Some? && t.redis.now == s.redis.now && t.instances == s.instances
            && (c.kind == Acquire ==> t.commands[k].ran.value.ok == Get(s.redis).None?)
            && (c.kind != Acquire ==> t.commands[k].ran.value.ok == Owns(s.redis, c.who))
            && Get(t.redis) == (if !t.commands[k].ran.value.ok then Get(s.redis)
                                else if c.kind == Release then None else lease)
  {
  }

  /** In every run a refresh was sent by a heartbeat of its instance while that was held and
      its timer ran, a release by a call of it while it was held. */
  lemma {:induction false} SentWhileHeld(n: nat, es: seq<Event>, ttl: nat, k: nat) returns (j: nat)
    requires k < |Run(n, es, ttl).commands| && Run(n, es, ttl).commands[k].kind != Acquire
    ensures j < |es| && |Run(n, es[..j], ttl).commands| == k
    ensures var s, c := Run(n, es[..j], ttl), Run(n, es, ttl).commands[k];
            && c.who < |s.instances| && s.instances[c.who].held
            && (c.kind == Refresh ==> s.instances[c.who].timer && es[j] == Heartbeat(c.who))
            && (c.kind == Release ==> es[j] == CallRelease(c.who))
  {
    var p, e := es[..|es| - 1], es[|es| - 1];
    CommandsGrow(Run(n, p, ttl), e, ttl);
    if k < |Run(n, p, ttl).commands| {
      j := SentWhileHeld(n, p, ttl, k);
      assert p[..j] == es[..j];
    } else {
      j := |p|;
      SentNow(Run(n, p, ttl), e, ttl);
    }
  }

  lemma CommandsGrow(s: State, e: Event, ttl: nat)
    ensures |s.commands| <= |Step(s, e, ttl).commands| <= |s.commands| + 1
    ensures var t := Step(s, e, ttl);
            forall k :: 0 <= k < |s.commands| ==>
              t.commands[k].who == s.commands[k].who && t.commands[k].kind == s.commands[k].kind
  {
  }

  lemma SentNow(s: State, e: Event, ttl: nat)
    requires |Step(s, e, ttl).commands| > |s.commands|
    ensures var c := Step(s, e, ttl).commands[|s.commands|];
            && c.who < |s.instances|
            && (c.kind == Refresh ==> s.instances[c.who] == Instance(true, true) && e == Heartbeat(c.who))
            && (c.kind == Release ==> s.instances[c.who].held && e == CallRelease(c.who))
  {
  }

  /** A heartbeat of the owner, sent, run and answered: it stays held, for a whole lease. */
  lemma HeartbeatAlone(s: State, i: Token, ttl: nat)
    requires i < |s.instances| && s.instances[i] == Instance(true, true) && Owns(s.redis, i) && ttl > 0
    ensures var k := |s.commands|;
            var t := Step(Step(Step(s, Heartbeat(i), ttl), Execute(k), ttl), Reply(k), ttl);
            t.instances == s.instances && Get(t.redis) == Some(Entry(i, s.redis.now + ttl))
  {
    var k := |s.commands|;
    var s1 := Step(s, Heartbeat(i), ttl);
    ExecutedIff(s1, k, ttl);
    var s2 := Step(s1, Execute(k), ttl);
    assert s2.commands[k].ran.value.ok && s2.instances[i].held;
  }

  /** Redis runs a call once and its caller hears of it once: in every run that goes on, what
      has been run or answered stays, and a second run, reply or failure does nothing. */
  lemma {:induction false} RunAndAnsweredOnce(n: nat, es: seq<Event>, ttl: nat, m: nat, k: nat)
    requires m <= |es| && k < |Run(n, es[..m], ttl).commands|
    ensures k < |Run(n, es, ttl).commands|
    ensures var b, c := Run(n, es[..m], ttl).commands[k], Run(n, es, ttl).commands[k];
            && (b.ran.Some? ==> c.ran == b.ran && Step(Run(n, es, ttl), Execute(k), ttl) == Run(n, es, ttl))
            && (b.answer.Some? ==> c.answer == b.answer && Step(Run(n, es, ttl), Reply(k), ttl) == Run(n, es, ttl)
                                   && Step(Run(n, es, ttl), Fail(k), ttl) == Run(n, es, ttl))
  {
    if m == |es| {
      assert es[..m] == es;
    } else {
      var p := es[..|es| - 1];
      assert p[..m] == es[..m];
      RunAndAnsweredOnce(n, p, ttl, m, k);
      CallStays(Run(n, p, ttl), es[|es| - 1], ttl, k);
    }
  }

  lemma CallStays(s: State, e: Event, ttl: nat, k: nat)
    requires k < |s.commands|
    ensures k < |Step(s, e, ttl).commands|
    ensures s.commands[k].ran.Some? ==> Step(s, e, ttl).commands[k].ran == s.commands[k].ran
    ensures s.commands[k].answer.Some? ==> Step(s, e, ttl).commands[k].answer == s.commands[k].answer
  {
  }

  /** A heartbeat whose call fails changes no instance, and leaves Redis alone. */
  lemma FailedHeartbeatChangesNothing(s: State, i: Token, ttl: nat)
    requires i < |s.instances|
    ensures var t := Step(Step(s, Heartbeat(i), ttl), Fail(|s.commands|), ttl);
            t.instances == s.instances && t.redis == s.redis
  {
  }

  /** An acquire of a key that another owns, sent, run and answered, changes nothing. */
  lemma AcquireOwned(s: State, i: Token, ttl: nat)
    requires i < |s.instances| && Get(s.redis).Some? && ttl > 0
    ensures var k := |s.commands|;
            var t := Step(Step(Step(s, TryAcquire(i), ttl), Execute(k), ttl), Reply(k), ttl);
            t.instances == s.instances && t.redis == s.redis
  {
    var k := |s.commands|;
    ExecutedIff(Step(s, TryAcquire(i), ttl), k, ttl);
  }

  /** A release by the owner, sent, run and answered, frees the key and ends held and
      heartbeat, so that no refresh is sent after it. */
  lemma ReleaseAlone(s: State, i: Token, ttl: nat)
    requires i < |s.instances| && s.instances[i].held && Owns(s.redis, i) && ttl > 0
    ensures var k := |s.commands|;
            var t := Step(Step(Step(s, CallRelease(i), ttl), Execute(k), ttl), Reply(k), ttl);
            && Get(t.redis).None? && t.instances == s.instances[i := Instance(false, false)]
            && Step(t, Heartbeat(i), ttl) == t
  {
    var k := |s.commands|;
    var s1 := Step(s, CallRelease(i), ttl);
    ExecutedIff(s1, k, ttl);
    assert Step(s1, Execute(k), ttl).instances[i] == Instance(true, false);
  }
}
