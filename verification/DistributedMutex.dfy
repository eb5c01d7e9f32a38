/** `DistributedMutex` on its in-memory locks: tokens, expiry, retry and metrics.

    Calls of `acquire` interleave at their sleeps; each try, each release and each
    passing of time is one step. A call's token is its number: tokens never repeat. */
module DistributedMutex {
  import opened Sums

  type Resource = string

  datatype Lock = Lock(token: nat, expiresAt: nat)

  /** A call of `acquire`, then the handle it returned. `misses` counts its failed tries. */
  datatype Phase = Trying | Acquired(expiresAt: nat, released: bool) | Refused
  datatype Call = Call(resource: Resource, misses: nat, phase: Phase)

  datatype Metrics = Metrics(acquisitions: nat, failures: nat, contentions: nat, releases: nat)

  datatype State = State(now: nat, locks: map<Resource, Lock>, calls: seq<Call>, metrics: Metrics)

  datatype Config = Config(timeout: nat, retryCount: nat)

  datatype Event = Begin(resource: Resource) | Try(call: nat) | Release(call: nat) | Elapse(ms: nat)

  const INITIAL := State(0, map[], [], Metrics(0, 0, 0, 0))

  /** A lock that blocks: present and not expired. */
  predicate Blocked(s: State, r: Resource) {
    r in s.locks && s.now < s.locks[r].expiresAt
  }

  function TryStep(s: State, c: nat, cfg: Config): State
    requires c < |s.calls|
  {
    var k, m := s.calls[c], s.metrics;
    if !Blocked(s, k.resource) then
      var lock := Lock(c, s.now + cfg.timeout);
      State(s.now, s.locks[k.resource := lock], s.calls[c := k.(phase := Acquired(lock.expiresAt, false))],
            m.(acquisitions := m.acquisitions + 1))
    else if k.misses < cfg.retryCount then
      s.(calls := s.calls[c := k.(misses := k.misses + 1)], metrics := m.(contentions := m.contentions + 1))
    else
      s.(calls := s.calls[c := Call(k.resource, k.misses + 1, Refused)],
         metrics := m.(contentions := m.contentions + 1, failures := m.failures + 1))
  }

  function ReleaseStep(s: State, c: nat): State
    requires c < |s.calls| && s.calls[c].phase.Acquired?
  {
    var k, m := s.calls[c], s.metrics;
    var t := s.(calls := s.calls[c := k.(phase := k.phase.(released := true))]);
    if k.resource in s.locks && s.locks[k.resource].token == c
    then t.(locks := s.locks - {k.resource}, metrics := m.(releases := m.releases + 1))
    else t
  }

  function Step(s: State, e: Event, cfg: Config): State {
    match e
    case Begin(r) => s.(calls := s.calls + [Call(r, 0, Trying)])
    case Try(c) => if c < |s.calls| && s.calls[c].phase == Trying then TryStep(s, c, cfg) else s
    case Release(c) => if c < |s.calls| && s.calls[c].phase.Acquired? then ReleaseStep(s, c) else s
    case Elapse(ms) => s.(now := s.now + ms)
  }

  function Run(es: seq<Event>, cfg: Config): State {
    if es == [] then INITIAL else Step(Run(es[..|es| - 1], cfg), es[|es| - 1], cfg)
  }

  // ----- the mutex object -----

  class Mutex {
    const config: Config
    var now: nat
    var localLocks: map<Resource, Lock>
    var calls: seq<Call>
    var metrics: Metrics

    ghost function Abstract(): State reads this { State(now, localLocks, calls, metrics) }

    constructor (config: Config)
      ensures Abstract() == INITIAL && this.config == config
    {
      this.config := config;
      now, localLocks, calls, metrics := 0, map[], [], Metrics(0, 0, 0, 0);
    }

    /** `tryAcquireLocal`: expired locks are cleaned on the way. */
    method TryAcquireLocal(resource: Resource, token: nat) returns (acquired: bool)
      modifies this`localLocks
      ensures acquired == !Blocked(old(Abstract()), resource)
      ensures localLocks == if acquired then old(localLocks)[resource := Lock(token, now + config.timeout)]
                            else old(localLocks)
    {
      if resource in localLocks {
        if localLocks[resource].expiresAt <= now {
          localLocks := localLocks - {resource};
        } else {
          return false;
        }
      }
      localLocks := localLocks[resource := Lock(token, now + config.timeout)];
      return true;
    }

    /** One turn of the retry loop of `acquire`. */
    method Attempt(c: nat)
      requires c < |calls| && calls[c].phase == Trying
      modifies this`localLocks, this`calls, this`metrics
      ensures Abstract() == Step(old(Abstract()), Try(c), config)
    {
      var k := calls[c];
      var acquired := TryAcquireLocal(k.resource, c);
      if acquired {
        calls := calls[c := k.(phase := Acquired(now + config.timeout, false))];
        metrics := metrics.(acquisitions := metrics.acquisitions + 1);
        return;
      }
      metrics := metrics.(contentions := metrics.contentions + 1);
      calls := calls[c := k.(misses := k.misses + 1)];
      if !(k.misses < config.retryCount) {
        metrics := metrics.(failures := metrics.failures + 1);
        calls := calls[c := calls[c].(phase := Refused)];
      }
    }

    /** `release` of the handle of call `c`. */
    method ReleaseHandle(c: nat)
      requires c < |calls| && calls[c].phase.Acquired?
      modifies this`localLocks, this`calls, this`metrics
      ensures Abstract() == Step(old(Abstract()), Release(c), config)
    {
      var resource := calls[c].resource;
      calls := calls[c := calls[c].(phase := calls[c].phase.(released := true))];
      if resource in localLocks && localLocks[resource].token == c {
        localLocks := localLocks - {resource};
        metrics := metrics.(releases := metrics.releases + 1);
      }
    }
  }

  // ----- exclusion -----

  /** The handle of call `c` is unreleased and unexpired. */
  predicate Live(s: State, c: nat) {
    c < |s.calls| && s.calls[c].phase.Acquired? && !s.calls[c].phase.released && s.now < s.calls[c].phase.expiresAt
  }

  ghost predicate LocksInv(s: State) {
    && (forall c: nat :: Live(s, c) ==>
          s.calls[c].resource in s.locks
          && s.locks[s.calls[c].resource] == Lock(c, s.calls[c].phase.expiresAt))
    && (forall r :: r in s.locks ==>
          var l := s.locks[r];
          l.token < |s.calls| && s.calls[l.token].resource == r
          && s.calls[l.token].phase == Acquired(l.expiresAt, false))
  }

  lemma TryKeepsLocks(s: State, c: nat, cfg: Config)
    requires LocksInv(s) && c < |s.calls| && s.calls[c].phase == Trying
    ensures LocksInv(TryStep(s, c, cfg))
  {
    var t := TryStep(s, c, cfg);
    forall d: nat | Live(t, d)
      ensures t.calls[d].resource in t.locks && t.locks[t.calls[d].resource] == Lock(d, t.calls[d].phase.expiresAt)
    {
      if d != c { assert Live(s, d); }
    }
  }

  lemma ReleaseKeepsLocks(s: State, c: nat)
    requires LocksInv(s) && c < |s.calls| && s.calls[c].phase.Acquired?
    ensures LocksInv(ReleaseStep(s, c))
  {
    var t := ReleaseStep(s, c);
    forall d: nat | Live(t, d)
      ensures t.calls[d].resource in t.locks && t.locks[t.calls[d].resource] == Lock(d, t.calls[d].phase.expiresAt)
    {
      assert d != c && Live(s, d);
    }
  }

  lemma {:induction false} RunKeepsLocks(es: seq<Event>, cfg: Config)
    ensures LocksInv(Run(es, cfg))
  {
    if es != [] {
      var s, e := Run(es[..|es| - 1], cfg), es[|es| - 1];
      RunKeepsLocks(es[..|es| - 1], cfg);
      var t := Step(s, e, cfg);
      match e
      case Begin(r) =>
        forall d: nat | Live(t, d) ensures Live(s, d) {}
      case Try(c) => if t != s { TryKeepsLocks(s, c, cfg); }
      case Release(c) => if t != s { ReleaseKeepsLocks(s, c); }
      case Elapse(ms) =>
        forall d: nat | Live(t, d) ensures Live(s, d) {}
    }
  }

  /** At most one unreleased, unexpired handle exists per resource. */
  lemma Exclusion(es: seq<Event>, cfg: Config, c: nat, d: nat)
    requires Live(Run(es, cfg), c) && Live(Run(es, cfg), d)
    requires Run(es, cfg).calls[c].resource == Run(es, cfg).calls[d].resource
    ensures c == d
  {
    RunKeepsLocks(es, cfg);
  }

  /** A release, however late, frees no other holder: the other handle stays live and
      its lock stays in place. */
  lemma LateReleaseIsHarmless(es: seq<Event>, cfg: Config, c: nat, d: nat)
    requires c != d && Live(Run(es, cfg), d)
    ensures var s, t := Run(es, cfg), Run(es + [Release(c)], cfg);
            Live(t, d) && s.calls[d].resource in t.locks
            && t.locks[s.calls[d].resource] == s.locks[s.calls[d].resource]
  {
    RunKeepsLocks(es, cfg);
    assert (es + [Release(c)])[..|es|] == es;
  }

  /** A try succeeds if and only if no handle for its resource is live, and the handle it
      gets is good for the whole timeout. */
  lemma TrySucceedsIff(es: seq<Event>, cfg: Config, c: nat)
    requires c < |Run(es, cfg).calls| && Run(es, cfg).calls[c].phase == Trying
    ensures var s, t := Run(es, cfg), Run(es + [Try(c)], cfg);
            && (t.calls[c].phase.Acquired? <==>
                  forall d: nat :: Live(s, d) ==> s.calls[d].resource != s.calls[c].resource)
            && (t.calls[c].phase.Acquired? ==> t.calls[c].phase == Acquired(s.now + cfg.timeout, false))
  {
    RunKeepsLocks(es, cfg);
    assert (es + [Try(c)])[..|es|] == es;
    var s := Run(es, cfg);
    if Blocked(s, s.calls[c].resource) { assert Live(s, s.locks[s.calls[c].resource].token); }
  }

  // ----- metrics -----

  function Won(k: Call): int { if k.phase.Acquired? then 1 else 0 }
  function Lost(k: Call): int { if k.phase.Refused? then 1 else 0 }
  function Open(k: Call): int { if k.phase.Trying? then 1 else 0 }
  function Misses(k: Call): int { k.misses }

  ghost predicate MissesOk(s: State, cfg: Config) {
    forall c :: 0 <= c < |s.calls| ==>
      if s.calls[c].phase.Refused? then s.calls[c].misses == cfg.retryCount + 1
      else s.calls[c].misses <= cfg.retryCount
  }

  /** The counters are the totals over the calls. */
  ghost predicate MetricsInv(s: State, cfg: Config) {
    && MissesOk(s, cfg)
    && s.metrics.acquisitions == Sum(Won, s.calls)
    && s.metrics.failures == Sum(Lost, s.calls)
    && s.metrics.contentions == Sum(Misses, s.calls)
  }

  lemma TotalsOfUpdate(s: seq<Call>, c: nat, k: Call)
    requires c < |s|
    ensures Sum(Won, s[c := k]) == Sum(Won, s) - Won(s[c]) + Won(k)
    ensures Sum(Lost, s[c := k]) == Sum(Lost, s) - Lost(s[c]) + Lost(k)
    ensures Sum(Misses, s[c := k]) == Sum(Misses, s) - Misses(s[c]) + Misses(k)
  {
    SumUpdate(Won, s, c, k);
    SumUpdate(Lost, s, c, k);
    SumUpdate(Misses, s, c, k);
  }

  lemma BeginKeepsMetrics(s: State, r: Resource, cfg: Config)
    requires MetricsInv(s, cfg)
    ensures MetricsInv(Step(s, Begin(r), cfg), cfg)
  {
    var k := Call(r, 0, Trying);
    SumSnoc(Won, s.calls, k);
    SumSnoc(Lost, s.calls, k);
    SumSnoc(Misses, s.calls, k);
  }

  lemma TryKeepsMetrics(s: State, c: nat, cfg: Config)
    requires MetricsInv(s, cfg) && c < |s.calls| && s.calls[c].phase == Trying
    ensures MetricsInv(TryStep(s, c, cfg), cfg)
  {
    TotalsOfUpdate(s.calls, c, TryStep(s, c, cfg).calls[c]);
  }

  lemma ReleaseKeepsMetrics(s: State, c: nat, cfg: Config)
    requires MetricsInv(s, cfg) && c < |s.calls| && s.calls[c].phase.Acquired?
    ensures MetricsInv(ReleaseStep(s, c), cfg)
  {
    TotalsOfUpdate(s.calls, c, ReleaseStep(s, c).calls[c]);
  }

  lemma StepKeepsMetrics(s: State, e: Event, cfg: Config)
    requires MetricsInv(s, cfg)
    ensures MetricsInv(Step(s, e, cfg), cfg)
  {
    if Step(s, e, cfg) != s {
      match e
      case Begin(r) => BeginKeepsMetrics(s, r, cfg);
      case Try(c) => TryKeepsMetrics(s, c, cfg);
      case Release(c) => ReleaseKeepsMetrics(s, c, cfg);
      case Elapse(_) =>
    }
  }

  lemma {:induction false} RunKeepsMetrics(es: seq<Event>, cfg: Config)
    ensures MetricsInv(Run(es, cfg), cfg)
  {
    if es != [] {
      RunKeepsMetrics(es[..|es| - 1], cfg);
      StepKeepsMetrics(Run(es[..|es| - 1], cfg), es[|es| - 1], cfg);
    }
  }

  lemma {:induction false} CallsPartition(s: seq<Call>)
    ensures Sum(Won, s) + Sum(Lost, s) + Sum(Open, s) == |s|
  {
    if s != [] { CallsPartition(s[..|s| - 1]); }
  }

  lemma OneMore(a: int, m: int)
    ensures (a + 1) * m == a * m + m
  {
  }

  lemma {:induction false} MissBounds(s: seq<Call>, rc: nat)
    requires forall c :: 0 <= c < |s| ==>
               if s[c].phase.Refused? then s[c].misses == rc + 1 else s[c].misses <= rc
    ensures Sum(Lost, s) * (rc + 1) <= Sum(Misses, s)
    ensures Sum(Misses, s) <= (Sum(Won, s) + Sum(Open, s)) * rc + Sum(Lost, s) * (rc + 1)
  {
    if s != [] {
      var p, k := s[..|s| - 1], s[|s| - 1];
      MissBounds(p, rc);
      if k.phase.Refused? {
        OneMore(Sum(Lost, p), rc + 1);
      } else {
        OneMore(Sum(Won, p) + Sum(Open, p), rc);
        assert Sum(Won, s) + Sum(Open, s) == Sum(Won, p) + Sum(Open, p) + 1;
      }
    }
  }

  /** Over every run: each finished acquire is counted once as acquisition or failure;
      and contentions lie between what the failures alone and what all calls together
      can have cost. Calls still retrying enter the upper bound like acquisitions. */
  lemma MetricsBounds(es: seq<Event>, cfg: Config)
    ensures var s, m, rc := Run(es, cfg), Run(es, cfg).metrics, cfg.retryCount;
            && m.acquisitions + m.failures == |s.calls| - Sum(Open, s.calls)
            && m.failures * (rc + 1) <= m.contentions
            && m.contentions <= (m.acquisitions + Sum(Open, s.calls)) * rc + m.failures * (rc + 1)
  {
    var s := Run(es, cfg);
    RunKeepsMetrics(es, cfg);
    CallsPartition(s.calls);
    MissBounds(s.calls, cfg.retryCount);
    assert s.metrics.failures == Sum(Lost, s.calls) && s.metrics.acquisitions == Sum(Won, s.calls);
  }

  function Freed(k: Call): int { if k.phase.Acquired? && k.phase.released then 1 else 0 }

  lemma {:induction false} FreedWereWon(s: seq<Call>)
    ensures Sum(Freed, s) <= Sum(Won, s)
  {
    if s != [] { FreedWereWon(s[..|s| - 1]); }
  }

  /** Together the releases counted are no more than the handles released. */
  lemma {:induction false} ReleasesWithinAcquisitions(es: seq<Event>, cfg: Config)
    ensures Run(es, cfg).metrics.releases <= Sum(Freed, Run(es, cfg).calls) <= Run(es, cfg).metrics.acquisitions
  {
    RunKeepsMetrics(es, cfg);
    FreedWereWon(Run(es, cfg).calls);
    if es != [] {
      var s, e := Run(es[..|es| - 1], cfg), es[|es| - 1];
      ReleasesWithinAcquisitions(es[..|es| - 1], cfg);
      RunKeepsLocks(es[..|es| - 1], cfg);
      ReleaseStepCount(s, e, cfg);
    }
  }

  lemma {:induction false} ReleasedStays(es: seq<Event>, cfg: Config, n: nat, c: nat)
    requires n <= |es| && c < |Run(es[..n], cfg).calls| && Freed(Run(es[..n], cfg).calls[c]) == 1
    ensures c < |Run(es, cfg).calls| && Freed(Run(es, cfg).calls[c]) == 1
  {
    if n == |es| {
      assert es[..n] == es;
    } else {
      assert es[..|es| - 1][..n] == es[..n];
      ReleasedStays(es[..|es| - 1], cfg, n, c);
    }
  }

  /** Each handle's releases are counted at most once: a release of a handle that has been
      released before, counted then or not, changes no metric and no lock. */
  lemma ReleasesCountedOnce(es: seq<Event>, cfg: Config, n: nat, c: nat)
    requires n < |es| && es[n] == Release(c) && c < |Run(es[..n], cfg).calls|
    requires Run(es[..n], cfg).calls[c].phase.Acquired?
    ensures var s, t := Run(es, cfg), Run(es + [Release(c)], cfg);
            t.metrics == s.metrics && t.locks == s.locks
  {
    assert es[..n + 1][..n] == es[..n];
    ReleasedStays(es, cfg, n + 1, c);
    RunKeepsLocks(es, cfg);
    assert (es + [Release(c)])[..|es|] == es;
  }

  lemma ReleaseAddsOne(s: State, c: nat)
    requires LocksInv(s) && c < |s.calls| && s.calls[c].phase.Acquired?
    requires s.metrics.releases <= Sum(Freed, s.calls)
    ensures ReleaseStep(s, c).metrics.releases <= Sum(Freed, ReleaseStep(s, c).calls)
  {
    SumUpdate(Freed, s.calls, c, ReleaseStep(s, c).calls[c]);
  }

  lemma TryAddsNone(s: State, c: nat, cfg: Config)
    requires c < |s.calls| && s.calls[c].phase == Trying
    ensures TryStep(s, c, cfg).metrics.releases == s.metrics.releases
    ensures Sum(Freed, TryStep(s, c, cfg).calls) == Sum(Freed, s.calls)
  {
    SumUpdate(Freed, s.calls, c, TryStep(s, c, cfg).calls[c]);
  }

  lemma ReleaseStepCount(s: State, e: Event, cfg: Config)
    requires LocksInv(s) && s.metrics.releases <= Sum(Freed, s.calls)
    ensures Step(s, e, cfg).metrics.releases <= Sum(Freed, Step(s, e, cfg).calls)
  {
    if Step(s, e, cfg) != s {
      match e
      case Begin(r) => SumSnoc(Freed, s.calls, Call(r, 0, Trying));
      case Try(c) => TryAddsNone(s, c, cfg);
      case Release(c) => ReleaseAddsOne(s, c);
      case Elapse(_) =>
    }
  }

  /** The release of a live handle frees its lock and is counted, and the next try for the
      resource gets it. */
  lemma LiveReleaseFrees(es: seq<Event>, cfg: Config, c: nat)
    requires Live(Run(es, cfg), c)
    ensures var s, t := Run(es, cfg), Run(es + [Release(c)], cfg);
            && !Blocked(t, s.calls[c].resource) && t.metrics == s.metrics.(releases := s.metrics.releases + 1)
            && forall d: nat :: Live(t, d) ==> t.calls[d].resource != s.calls[c].resource
  {
    RunKeepsLocks(es, cfg);
    assert (es + [Release(c)])[..|es|] == es;
    RunKeepsLocks(es + [Release(c)], cfg);
  }
}
