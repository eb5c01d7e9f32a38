/** `OpportunityRanker`: a bounded window of opportunities, sorted by quality.

    Qualities are exact reals, times are integers. The window stores values: a caller
    that changes an opportunity after handing it over is not modelled. */
module OpportunityRanker {
  import opened Options
  import opened StableSort

  datatype Opportunity = Opportunity(id: string, quality: real, expiresAt: int)

  /** A window element with the rank it was given last. */
  datatype Ranked = Ranked(opp: Opportunity, rank: nat)

  datatype Config = Config(windowSize: nat, topFraction: real, minQuality: real)

  type Window = seq<Ranked>

  /** The comparator `b.qualityScore - a.qualityScore` sorts by ascending negated quality. */
  function Key(r: Ranked): real { -r.opp.quality }

  function Keep(w: Window, now: int): Window {
    if w == [] then []
    else (if w[0].opp.expiresAt < now then [] else [w[0]]) + Keep(w[1..], now)
  }

  /** The first position of an id, or the length. */
  function Find(w: Window, id: string): (i: nat)
    ensures i <= |w|
    ensures i < |w| ==> w[i].opp.id == id
    ensures forall j :: 0 <= j < i ==> w[j].opp.id != id
  {
    if w == [] || w[0].opp.id == id then 0 else 1 + Find(w[1..], id)
  }

  function Place(w: Window, opp: Opportunity): Window {
    var i := Find(w, opp.id);
    if i < |w| then w[i := Ranked(opp, 0)] else w + [Ranked(opp, 0)]
  }

  function First<T>(n: nat, s: seq<T>): seq<T> {
    if |s| <= n then s else s[..n]
  }

  function Rerank(w: Window): (r: Window)
    ensures |r| == |w|
    ensures forall i :: 0 <= i < |w| ==> r[i] == Ranked(w[i].opp, i + 1)
  {
    seq(|w|, i requires 0 <= i < |w| => Ranked(w[i].opp, i + 1))
  }

  function Upsert(cfg: Config, w: Window, opp: Opportunity, now: int): Window {
    var kept := Keep(w, now);
    if opp.quality < cfg.minQuality then kept
    else Rerank(First(cfg.windowSize, Sort(Key, Place(kept, opp))))
  }

  /** Ceiling, and the number of ranks approved in a window of n. */
  function Ceil(x: real): int { -((-x).Floor) }

  function Cutoff(cfg: Config, n: nat): int {
    var c := Ceil(n as real * cfg.topFraction);
    if c > 1 then c else 1
  }

  /** `isApproved` on a window from which expired elements are gone. */
  predicate Approved(cfg: Config, w: Window, id: string) {
    var i := Find(w, id);
    i < |w| && w[i].rank <= Cutoff(cfg, |w|)
  }

  /** One turn of the eviction loop. */
  lemma KeepFrom(w: Window, i: nat, now: int)
    requires i < |w|
    ensures Keep(w[i..], now) == (if w[i].opp.expiresAt < now then [] else [w[i]]) + Keep(w[i + 1..], now)
  {
    assert w[i..][1..] == w[i + 1..];
  }

  /** A prefix followed by some tail, seen from the last element of the prefix. */
  lemma CutAt(w: Window, i: nat, tail: Window)
    requires i < |w|
    ensures var v := w[..i + 1] + tail;
            v[i] == w[i] && v[..i] == w[..i] && v[i + 1..] == tail && v == w[..i] + ([w[i]] + tail)
  {
  }

  // ----- the ranker object -----

  class Ranker {
    const cfg: Config
    var window: Window

    constructor (cfg: Config)
      ensures window == [] && this.cfg == cfg
    {
      this.cfg := cfg;
      window := [];
    }

    /** `evictExpired`: backwards, splicing in place; ranks are left as they are. */
    method EvictExpired(now: int)
      modifies this
      ensures window == Keep(old(window), now)
    {
      ghost var w := window;
      var i := |window|;
      assert w[i..] == [];
      while i > 0
        invariant 0 <= i <= |w|
        invariant window == w[..i] + Keep(w[i..], now)
      {
        i := i - 1;
        KeepFrom(w, i, now);
        CutAt(w, i, Keep(w[i + 1..], now));
        if window[i].opp.expiresAt < now {
          window := window[..i] + window[i + 1..];
        }
      }
      assert w[0..] == w;
    }

    method UpsertOpportunity(opp: Opportunity, now: int) returns (ranked: Option<Ranked>)
      modifies this
      ensures window == Upsert(cfg, old(window), opp, now)
      ensures ranked == if opp.quality < cfg.minQuality || Find(window, opp.id) == |window| then None
                        else Some(window[Find(window, opp.id)])
    {
      EvictExpired(now);
      if opp.quality < cfg.minQuality { return None; }
      var idx := Find(window, opp.id);
      if idx < |window| {
        window := window[idx := Ranked(opp, 0)];
      } else {
        window := window + [Ranked(opp, 0)];
      }
      window := Sort(Key, window);
      ghost var sorted := window;
      while |window| > cfg.windowSize
        invariant First(cfg.windowSize, window) == First(cfg.windowSize, sorted)
        decreases |window|
      {
        window := window[..|window| - 1];
      }
      ghost var cut := window;
      var i := 0;
      while i < |window|
        invariant 0 <= i <= |cut| && |window| == |cut|
        invariant forall j :: 0 <= j < i ==> window[j] == Ranked(cut[j].opp, j + 1)
        invariant forall j :: i <= j < |cut| ==> window[j] == cut[j]
      {
        window := window[i := Ranked(window[i].opp, i + 1)];
        i := i + 1;
      }
      assert window == Rerank(cut);
      var at := Find(window, opp.id);
      return if at < |window| then Some(window[at]) else None;
    }

    method IsApproved(id: string, now: int) returns (approved: bool)
      modifies this
      ensures window == Keep(old(window), now)
      ensures approved == Approved(cfg, window, id)
    {
      EvictExpired(now);
      var at := Find(window, id);
      if at == |window| { return false; }
      return window[at].rank <= Cutoff(cfg, |window|);
    }
  }

  // ----- runs -----

  /** `Look` stands for every reader: each of them only evicts. */
  datatype Event = Put(opp: Opportunity, now: int) | Look(now: int) | Clear

  function Step(cfg: Config, w: Window, e: Event): Window {
    match e
    case Put(opp, now) => Upsert(cfg, w, opp, now)
    case Look(now) => Keep(w, now)
    case Clear => []
  }

  function Run(cfg: Config, es: seq<Event>): Window {
    if es == [] then [] else Step(cfg, Run(cfg, es[..|es| - 1]), es[|es| - 1])
  }

  /** Clearing forgets everything: what follows is as from the start. */
  lemma {:induction false} ClearStartsAnew(cfg: Config, es: seq<Event>, fs: seq<Event>)
    ensures Run(cfg, es + [Clear] + fs) == Run(cfg, fs)
  {
    var all := es + [Clear] + fs;
    if fs != [] {
      ClearStartsAnew(cfg, es, fs[..|fs| - 1]);
      assert all[..|all| - 1] == es + [Clear] + fs[..|fs| - 1];
    }
  }

  ghost predicate Distinct(w: Window) {
    forall i, j :: 0 <= i < j < |w| ==> w[i].opp.id != w[j].opp.id
  }

  /** Sorted by quality, one element per id, ranks positive and strictly increasing. */
  ghost predicate Inv(w: Window) {
    && Sorted(Key, w)
    && Distinct(w)
    && (forall i, j :: 0 <= i < j < |w| ==> w[i].rank < w[j].rank)
    && (forall i :: 0 <= i < |w| ==> w[i].rank >= 1)
  }

  lemma {:induction false} KeepIsSubsequence(w: Window, now: int, i: nat) returns (k: nat)
    requires i < |Keep(w, now)|
    ensures k < |w| && w[k] == Keep(w, now)[i] && k >= i
    ensures w[k].opp.expiresAt >= now
  {
    if w[0].opp.expiresAt < now {
      var m := KeepIsSubsequence(w[1..], now, i);
      k := m + 1;
    } else if i == 0 {
      k := 0;
    } else {
      var m := KeepIsSubsequence(w[1..], now, i - 1);
      k := m + 1;
    }
  }

  lemma {:induction false} KeepKeepsInv(w: Window, now: int)
    requires Inv(w)
    ensures Inv(Keep(w, now))
  {
    if w != [] {
      var t, r := w[1..], Keep(w, now);
      KeepKeepsInv(t, now);
      var q := Keep(t, now);
      forall i | 0 <= i < |q|
        ensures Key(w[0]) <= Key(q[i]) && w[0].opp.id != q[i].opp.id && w[0].rank < q[i].rank
      {
        var k := KeepIsSubsequence(t, now, i);
        assert t[k] == w[k + 1];
      }
      if w[0].opp.expiresAt >= now {
        assert r == [w[0]] + q;
      } else {
        assert r == q;
      }
    }
  }

  lemma {:induction false} SortKeepsDistinct(w: Window)
    requires Distinct(w)
    ensures Distinct(Sort(Key, w))
  {
    if w != [] {
      var p, l := w[..|w| - 1], w[|w| - 1];
      SortKeepsDistinct(p);
      SortSorts(Key, p);
      var q := Sort(Key, p);
      forall i | 0 <= i < |q| ensures q[i].opp.id != l.opp.id {
        assert q[i] in multiset(q);
        var k :| 0 <= k < |p| && p[k] == q[i];
        assert w[k] == q[i];
      }
      InsertKeepsDistinct(q, l);
    }
  }

  lemma {:induction false} InsertKeepsDistinct(w: Window, x: Ranked)
    requires Distinct(w) && forall i :: 0 <= i < |w| ==> w[i].opp.id != x.opp.id
    ensures Distinct(Insert(Key, w, x))
  {
    if !(w == [] || Key(w[|w| - 1]) <= Key(x)) {
      var p, l := w[..|w| - 1], w[|w| - 1];
      InsertKeepsDistinct(p, x);
      InsertElements(Key, p, x);
      var q := Insert(Key, p, x);
      forall i | 0 <= i < |q| ensures q[i].opp.id != l.opp.id {
        assert q[i] in multiset(q);
        if q[i] != x { var k :| 0 <= k < |p| && p[k] == q[i]; }
      }
    }
  }

  lemma PlaceKeepsDistinct(w: Window, opp: Opportunity)
    requires Distinct(w)
    ensures Distinct(Place(w, opp))
  {
  }

  lemma RerankMakesInv(n: nat, w: Window)
    requires Sorted(Key, w) && Distinct(w)
    ensures Inv(Rerank(First(n, w)))
  {
  }

  lemma UpsertKeepsInv(cfg: Config, w: Window, opp: Opportunity, now: int)
    requires Inv(w)
    ensures Inv(Upsert(cfg, w, opp, now))
  {
    KeepKeepsInv(w, now);
    var placed := Place(Keep(w, now), opp);
    PlaceKeepsDistinct(Keep(w, now), opp);
    SortKeepsDistinct(placed);
    SortSorts(Key, placed);
    RerankMakesInv(cfg.windowSize, Sort(Key, placed));
  }

  lemma {:induction false} RunKeepsInv(cfg: Config, es: seq<Event>)
    ensures Inv(Run(cfg, es))
  {
    if es != [] {
      var w := Run(cfg, es[..|es| - 1]);
      RunKeepsInv(cfg, es[..|es| - 1]);
      match es[|es| - 1]
      case Put(opp, now) => UpsertKeepsInv(cfg, w, opp, now);
      case Look(now) => KeepKeepsInv(w, now);
      case Clear =>
    }
  }

  // ----- approval -----

  lemma {:induction false} RanksClimb(w: Window)
    requires Inv(w)
    ensures forall i :: 0 <= i < |w| ==> w[i].rank >= i + 1
  {
    if |w| > 1 {
      RanksClimb(w[..|w| - 1]);
      assert w[|w| - 2].rank >= |w| - 1;
    }
  }

  /** The elements ranked within a cutoff are a prefix no longer than the cutoff. */
  lemma {:induction false} RanksWithin(w: Window, c: int) returns (n: nat)
    requires Inv(w) && c >= 1
    ensures n <= |w| && n <= c && forall i :: 0 <= i < |w| ==> (w[i].rank <= c <==> i < n)
  {
    if w == [] {
      n := 0;
    } else {
      RanksClimb(w);
      var last := |w| - 1;
      if w[last].rank <= c { n := |w|; } else { n := RanksWithin(w[..last], c); }
    }
  }

  /** The position an id is found at is its only one. */
  lemma FoundWhereItIs(w: Window, i: nat)
    requires Distinct(w) && i < |w|
    ensures Find(w, w[i].opp.id) == i
  {
  }

  /** Nothing stands before, or fewer than the fraction of a window of n. */
  predicate WithinFraction(cfg: Config, n: nat, before: int) {
    before <= 0 || before as real < n as real * cfg.topFraction
  }

  lemma CeilBounds(x: real, k: int)
    ensures k < Ceil(x) <==> k as real < x
  {
  }

  /** What the cutoff is: the best is within it, and whatever fewer than the fraction of the
      window stand before. */
  lemma CutoffIff(cfg: Config, n: nat, before: int)
    ensures before < Cutoff(cfg, n) <==> WithinFraction(cfg, n, before)
  {
    CeilBounds(n as real * cfg.topFraction, before);
  }

  lemma ApprovedWithinCutoff(cfg: Config, w: Window) returns (n: nat)
    requires Inv(w)
    ensures n <= |w| && n <= Cutoff(cfg, |w|)
    ensures forall i :: 0 <= i < |w| ==> (Approved(cfg, w, w[i].opp.id) <==> i < n)
  {
    n := RanksWithin(w, Cutoff(cfg, |w|));
    forall i | 0 <= i < |w| ensures Approved(cfg, w, w[i].opp.id) <==> i < n {
      FoundWhereItIs(w, i);
    }
  }

  lemma BestFirst(w: Window)
    requires Sorted(Key, w)
    ensures forall i, j :: 0 <= i < j < |w| ==> w[i].opp.quality >= w[j].opp.quality
  {
    forall i, j | 0 <= i < j < |w| ensures w[i].opp.quality >= w[j].opp.quality { assert Key(w[i]) <= Key(w[j]); }
  }

  /** In every run, however stale the ranks: the approved opportunities are the first n of
      the window, which is sorted by quality, best first; and n is at most 1 or less than the
      fraction of the window plus 1. */
  lemma ApprovedArePrefix(cfg: Config, es: seq<Event>) returns (n: nat)
    ensures var w := Run(cfg, es);
            && n <= |w| && WithinFraction(cfg, |w|, n - 1)
            && (forall i, j :: 0 <= i < j < |w| ==> w[i].opp.quality >= w[j].opp.quality)
            && (forall i :: 0 <= i < |w| ==> (Approved(cfg, w, w[i].opp.id) <==> i < n))
  {
    RunKeepsInv(cfg, es);
    BestFirst(Run(cfg, es));
    n := ApprovedWithinCutoff(cfg, Run(cfg, es));
    CutoffIff(cfg, |Run(cfg, es)|, n - 1);
  }

  /** Nothing is approved that is not in the window. */
  lemma ApprovedIsInWindow(cfg: Config, w: Window, id: string)
    requires Approved(cfg, w, id)
    ensures exists i :: 0 <= i < |w| && w[i].opp.id == id
  {
    assert w[Find(w, id)].opp.id == id;
  }

  /** Right after an accepted upsert ranks are fresh: approved are the best and those before
      which fewer than the fraction of the window stand. */
  lemma FreshApproval(cfg: Config, es: seq<Event>, opp: Opportunity, now: int, i: nat)
    requires opp.quality >= cfg.minQuality
    requires i < |Run(cfg, es + [Put(opp, now)])|
    ensures var w := Run(cfg, es + [Put(opp, now)]);
            Approved(cfg, w, w[i].opp.id) <==> WithinFraction(cfg, |w|, i)
  {
    var es' := es + [Put(opp, now)];
    CutoffIff(cfg, |Run(cfg, es')|, i);
    assert es'[..|es|] == es;
    RunKeepsInv(cfg, es');
    FoundWhereItIs(Run(cfg, es'), i);
  }

  /** Something is approved exactly when the best opportunity of the window is, by its
      possibly stale rank. */
  lemma SomethingApprovedIff(cfg: Config, es: seq<Event>)
    requires Run(cfg, es) != []
    ensures var w := Run(cfg, es);
            (exists i :: 0 <= i < |w| && Approved(cfg, w, w[i].opp.id))
            <==> WithinFraction(cfg, |w|, w[0].rank - 1)
  {
    var w := Run(cfg, es);
    RunKeepsInv(cfg, es);
    CutoffIff(cfg, |w|, w[0].rank - 1);
    FoundWhereItIs(w, 0);
    forall i | 0 <= i < |w| && Approved(cfg, w, w[i].opp.id) ensures w[0].rank <= Cutoff(cfg, |w|) {
      FoundWhereItIs(w, i);
    }
  }

  const DEFAULTS := Config(50, 0.7, 0.35)

  const BETTER := Opportunity("a", 0.9, 10)
  const WORSE := Opportunity("b", 0.5, 100)

  lemma FirstUpsert(cfg: Config, x: Opportunity, now: int)
    requires x.quality >= cfg.minQuality && cfg.windowSize >= 1
    ensures Upsert(cfg, [], x, now) == [Ranked(x, 1)]
  {
    var e := Ranked(x, 0);
    assert [] + [e] == [e];
    assert Place(Keep([], now), x) == [e];
    SortAfterAppend(Key, [], e);
    assert Sort(Key, [e]) == [e];
  }

  lemma SecondUpsert(cfg: Config, x: Opportunity, y: Opportunity, now: int)
    requires cfg.minQuality <= y.quality <= x.quality && cfg.windowSize >= 2
    requires x.id != y.id && x.expiresAt >= now
    ensures Upsert(cfg, [Ranked(x, 1)], y, now) == [Ranked(x, 1), Ranked(y, 2)]
  {
    var w, e := [Ranked(x, 1)], Ranked(y, 0);
    assert w[0].opp == x && w[1..] == [];
    assert Keep(w, now) == w;
    assert Place(w, y) == w + [e] by { assert Find(w, y.id) == 1; }
    SortAfterAppend(Key, w, e);
    var z := [Ranked(x, 1), e];
    assert Insert(Key, w, e) == z;
    assert Rerank(First(cfg.windowSize, z)) == [Ranked(x, 1), Ranked(y, 2)];
  }

  lemma RunSnoc(cfg: Config, es: seq<Event>, e: Event)
    ensures Run(cfg, es + [e]) == Step(cfg, Run(cfg, es), e)
  {
    assert (es + [e])[..|es|] == es;
  }

  lemma TwoRanked(cfg: Config, x: Opportunity, y: Opportunity, now: int)
    requires cfg.minQuality <= y.quality <= x.quality && cfg.windowSize >= 2
    requires x.id != y.id && x.expiresAt >= now
    ensures Run(cfg, [] + [Put(x, now)] + [Put(y, now)]) == [Ranked(x, 1), Ranked(y, 2)]
  {
    RunSnoc(cfg, [], Put(x, now));
    FirstUpsert(cfg, x, now);
    RunSnoc(cfg, [] + [Put(x, now)], Put(y, now));
    SecondUpsert(cfg, x, y, now);
  }

  /** Which can happen: under the default options the only opportunity left in the window
      is not approved, because a better one expired after the ranks were given. */
  lemma StaleRankBlocksTheBest() returns (es: seq<Event>)
    ensures Run(DEFAULTS, es) == [Ranked(WORSE, 2)] && !Approved(DEFAULTS, Run(DEFAULTS, es), WORSE.id)
  {
    var e2 := [] + [Put(BETTER, 0)] + [Put(WORSE, 0)];
    TwoRanked(DEFAULTS, BETTER, WORSE, 0);
    es := e2 + [Look(50)];
    RunSnoc(DEFAULTS, e2, Look(50));
    var w2 := [Ranked(BETTER, 1), Ranked(WORSE, 2)];
    assert w2[1..] == [Ranked(WORSE, 2)] && Keep(w2[1..], 50) == [Ranked(WORSE, 2)];
  }

  // ----- streaming equals batch -----

  function Quality(o: Opportunity): real { -o.quality }

  function Opps(w: Window): (r: seq<Opportunity>)
    ensures |r| == |w| && forall i :: 0 <= i < |w| ==> r[i] == w[i].opp
  {
    seq(|w|, i requires 0 <= i < |w| => w[i].opp)
  }

  /** The opportunities at or above the minimum, in arrival order. */
  function Accepted(cfg: Config, s: seq<Opportunity>): seq<Opportunity> {
    if s == [] then []
    else Accepted(cfg, s[..|s| - 1]) + (if s[|s| - 1].quality < cfg.minQuality then [] else [s[|s| - 1]])
  }

  /** Sort everything, take the top. */
  function Batch(cfg: Config, s: seq<Opportunity>): seq<Opportunity> {
    First(cfg.windowSize, Sort(Quality, Accepted(cfg, s)))
  }

  /** The run that upserts the opportunities one by one at the given times. */
  function Stream(s: seq<Opportunity>, nows: seq<int>): seq<Event>
    requires |s| == |nows|
  {
    seq(|s|, i requires 0 <= i < |s| => Put(s[i], nows[i]))
  }

  lemma {:induction false} InsertIgnoresRanks(w: Window, x: Ranked)
    ensures Opps(Insert(Key, w, x)) == Insert(Quality, Opps(w), x.opp)
  {
    if !(w == [] || Key(w[|w| - 1]) <= Key(x)) {
      var p := w[..|w| - 1];
      InsertIgnoresRanks(p, x);
      assert Opps(w)[..|w| - 1] == Opps(p);
    }
  }

  /** Cutting to the top before an insertion loses nothing that matters afterwards. */
  lemma {:induction false} CutBeforeInsert<T>(key: T -> real, n: nat, s: seq<T>, x: T)
    requires Sorted(key, s)
    ensures First(n, Insert(key, First(n, s), x)) == First(n, Insert(key, s, x))
  {
    InsertElements(key, s, x);
    InsertElements(key, First(n, s), x);
    if |s| > n {
      var p, l := s[..|s| - 1], s[|s| - 1];
      CutBeforeInsert(key, n, p, x);
      InsertElements(key, p, x);
      assert First(n, p) == First(n, s);
      if key(l) <= key(x) {
        if n > 0 { assert key(s[n - 1]) <= key(l); }
      }
    }
  }

  lemma {:induction false} KeepAll(w: Window, now: int)
    requires forall i :: 0 <= i < |w| ==> w[i].opp.expiresAt >= now
    ensures Keep(w, now) == w
  {
    if w != [] { KeepAll(w[1..], now); }
  }

  lemma {:induction false} AcceptedAre(cfg: Config, s: seq<Opportunity>)
    ensures forall o :: o in Accepted(cfg, s) ==> o in s
  {
    if s != [] { AcceptedAre(cfg, s[..|s| - 1]); }
  }

  /** Everything in the batch result was upserted. */
  lemma BatchFromInput(cfg: Config, s: seq<Opportunity>, i: nat)
    requires i < |Batch(cfg, s)|
    ensures Batch(cfg, s)[i] in s
  {
    var a := Accepted(cfg, s);
    SortSorts(Quality, a);
    AcceptedAre(cfg, s);
    assert Sort(Quality, a)[i] in multiset(Sort(Quality, a));
  }

  lemma OppsOfCut(n: nat, z: Window)
    ensures Opps(Rerank(First(n, z))) == First(n, Opps(z))
  {
  }

  /** Inserting into the cut window is inserting into the whole list and cutting. */
  lemma InsertIntoBatch(n: nat, w: Window, a: seq<Opportunity>, x: Opportunity)
    requires Sorted(Key, w) && Opps(w) == First(n, Sort(Quality, a))
    ensures Opps(Rerank(First(n, Sort(Key, w + [Ranked(x, 0)])))) == First(n, Sort(Quality, a + [x]))
  {
    var e := Ranked(x, 0);
    SortAfterAppend(Key, w, e);
    InsertIgnoresRanks(w, e);
    SortSorts(Quality, a);
    CutBeforeInsert(Quality, n, Sort(Quality, a), x);
    assert (a + [x])[..|a|] == a;
    OppsOfCut(n, Insert(Key, w, e));
  }

  lemma AcceptedSnoc(cfg: Config, s: seq<Opportunity>, x: Opportunity)
    ensures Accepted(cfg, s + [x]) ==
              if x.quality < cfg.minQuality then Accepted(cfg, s) else Accepted(cfg, s) + [x]
  {
    assert (s + [x])[..|s|] == s;
  }

  lemma StreamKeepsAll(cfg: Config, s: seq<Opportunity>, w: Window, now: int)
    requires Opps(w) == Batch(cfg, s) && forall o :: o in s ==> o.expiresAt >= now
    ensures Keep(w, now) == w
    ensures forall i :: 0 <= i < |w| ==> w[i].opp in s
  {
    forall i | 0 <= i < |w| ensures w[i].opp in s {
      BatchFromInput(cfg, s, i);
      assert w[i].opp == Batch(cfg, s)[i];
    }
    KeepAll(w, now);
  }

  lemma StreamStep(cfg: Config, s: seq<Opportunity>, x: Opportunity, w: Window, now: int)
    requires Inv(w) && Opps(w) == Batch(cfg, s)
    requires forall o :: o in s ==> o.id != x.id && o.expiresAt >= now
    ensures Opps(Upsert(cfg, w, x, now)) == Batch(cfg, s + [x])
  {
    StreamKeepsAll(cfg, s, w, now);
    AcceptedSnoc(cfg, s, x);
    if x.quality >= cfg.minQuality {
      InsertIntoBatch(cfg.windowSize, w, Accepted(cfg, s), x);
      assert Place(w, x) == w + [Ranked(x, 0)];
    }
  }

  ghost predicate FreshRanks(w: Window) {
    forall i :: 0 <= i < |w| ==> w[i].rank == i + 1
  }

  lemma StreamKeepsRanksFresh(cfg: Config, s: seq<Opportunity>, x: Opportunity, w: Window, now: int)
    requires FreshRanks(w) && Opps(w) == Batch(cfg, s) && forall o :: o in s ==> o.expiresAt >= now
    ensures FreshRanks(Upsert(cfg, w, x, now))
  {
    StreamKeepsAll(cfg, s, w, now);
  }

  /** Streaming equals batch: upserting opportunities with distinct ids, none of which has
      expired by any of the times, leaves exactly the top of the stable descending sort of
      all accepted ones, ranked from 1. */
  lemma {:induction false} StreamingEqualsBatch(cfg: Config, s: seq<Opportunity>, nows: seq<int>)
    requires |s| == |nows|
    requires forall i, j :: 0 <= i < j < |s| ==> s[i].id != s[j].id
    requires forall i, j :: 0 <= i < |s| && 0 <= j < |nows| ==> s[i].expiresAt >= nows[j]
    ensures Opps(Run(cfg, Stream(s, nows))) == Batch(cfg, s)
    ensures FreshRanks(Run(cfg, Stream(s, nows)))
  {
    if s != [] {
      var n := |s| - 1;
      var p, x, es := s[..n], s[n], Stream(s[..n], nows[..n]);
      StreamingEqualsBatch(cfg, p, nows[..n]);
      RunKeepsInv(cfg, es);
      StreamStep(cfg, p, x, Run(cfg, es), nows[n]);
      StreamKeepsRanksFresh(cfg, p, x, Run(cfg, es), nows[n]);
      assert Stream(s, nows) == es + [Put(x, nows[n])] && s == p + [x];
      RunSnoc(cfg, es, Put(x, nows[n]));
    }
  }

  // ----- what an upsert keeps -----

  /** What may stand in the window after an upsert: the new opportunity, and the unexpired
      ones with other ids. */
  ghost predicate IsCandidate(w: Window, x: Opportunity, now: int, o: Opportunity) {
    o == x || (o.id != x.id && o.expiresAt >= now && exists i :: 0 <= i < |w| && w[i].opp == o)
  }

  ghost predicate Contains(w: Window, o: Opportunity) {
    exists i :: 0 <= i < |w| && w[i].opp == o
  }

  /** Eviction keeps exactly the unexpired elements. */
  lemma {:induction false} KeepIff(w: Window, now: int, o: Opportunity)
    ensures Contains(Keep(w, now), o) <==> Contains(w, o) && o.expiresAt >= now
  {
    if w != [] {
      var t, r := w[1..], Keep(w, now);
      KeepIff(t, now, o);
      var q := Keep(t, now);
      if Contains(t, o) {
        var i :| 0 <= i < |t| && t[i].opp == o;
        assert w[i + 1].opp == o;
      }
      if w[0].opp.expiresAt >= now {
        assert r == [w[0]] + q;
        if Contains(q, o) {
          var i :| 0 <= i < |q| && q[i].opp == o;
          assert r[i + 1].opp == o;
        }
        if w[0].opp == o { assert r[0].opp == o; }
      } else {
        assert r == q;
      }
    }
  }

  lemma PlacedIff(w: Window, x: Opportunity, o: Opportunity)
    requires Distinct(w)
    ensures Contains(Place(w, x), o) <==> o == x || (o.id != x.id && Contains(w, o))
  {
    var f, p := Find(w, x.id), Place(w, x);
    assert p[f].opp == x;
    if Contains(w, o) && o.id != x.id {
      var i :| 0 <= i < |w| && w[i].opp == o;
      assert p[i].opp == o;
    }
  }

  lemma CandidatesPlaced(w: Window, x: Opportunity, now: int, o: Opportunity)
    requires Inv(w)
    ensures Contains(Place(Keep(w, now), x), o) <==> IsCandidate(w, x, now, o)
  {
    KeepKeepsInv(w, now);
    PlacedIff(Keep(w, now), x, o);
    KeepIff(w, now, o);
  }

  lemma SortContains(w: Window, o: Opportunity)
    ensures Contains(Sort(Key, w), o) <==> Contains(w, o)
  {
    SortSorts(Key, w);
    var q := Sort(Key, w);
    if Contains(w, o) {
      var i :| 0 <= i < |w| && w[i].opp == o;
      assert w[i] in multiset(q);
      var k :| 0 <= k < |q| && q[k] == w[i];
    }
    if Contains(q, o) {
      var i :| 0 <= i < |q| && q[i].opp == o;
      assert q[i] in multiset(w);
      var k :| 0 <= k < |w| && w[k] == q[i];
    }
  }

  lemma CutKeepsBest(n: nat, q: Window, o: Opportunity)
    requires Sorted(Key, q)
    ensures var t := Rerank(First(n, q));
            && (Contains(t, o) ==> Contains(q, o)) && |t| <= n
            && (Contains(q, o) && !Contains(t, o) ==>
                  |t| == n && forall i :: 0 <= i < n ==> t[i].opp.quality >= o.quality)
  {
    var t := Rerank(First(n, q));
    if Contains(t, o) {
      var i :| 0 <= i < |t| && t[i].opp == o;
      assert q[i].opp == o;
    }
    if Contains(q, o) && !Contains(t, o) {
      var i :| 0 <= i < |q| && q[i].opp == o;
      assert i < |t| ==> t[i].opp == o;
      forall j | 0 <= j < n ensures t[j].opp.quality >= o.quality { assert Key(q[j]) <= Key(q[i]); }
    }
  }

  /** In every run an accepted upsert leaves the best windowSize of the candidates: whatever
      is in the window is one, in its newest version; and a candidate that is not in it
      finds the window full of opportunities at least as good. */
  lemma UpsertKeepsTheBest(cfg: Config, es: seq<Event>, x: Opportunity, now: int, o: Opportunity)
    requires x.quality >= cfg.minQuality
    ensures var w, t := Run(cfg, es), Run(cfg, es + [Put(x, now)]);
            && |t| <= cfg.windowSize
            && (Contains(t, o) ==> IsCandidate(w, x, now, o))
            && (IsCandidate(w, x, now, o) && !Contains(t, o) ==>
                  |t| == cfg.windowSize && forall i :: 0 <= i < |t| ==> t[i].opp.quality >= o.quality)
  {
    var w := Run(cfg, es);
    RunKeepsInv(cfg, es);
    RunSnoc(cfg, es, Put(x, now));
    var placed := Place(Keep(w, now), x);
    CandidatesPlaced(w, x, now, o);
    SortContains(placed, o);
    SortSorts(Key, placed);
    CutKeepsBest(cfg.windowSize, Sort(Key, placed), o);
  }

  /** A rejected upsert, and every look, only evicts. */
  lemma RejectedOnlyEvicts(cfg: Config, es: seq<Event>, x: Opportunity, now: int, o: Opportunity)
    requires x.quality < cfg.minQuality
    ensures var w := Run(cfg, es);
            && (Contains(Run(cfg, es + [Put(x, now)]), o) <==> Contains(w, o) && o.expiresAt >= now)
            && (Contains(Run(cfg, es + [Look(now)]), o) <==> Contains(w, o) && o.expiresAt >= now)
  {
    RunSnoc(cfg, es, Put(x, now));
    RunSnoc(cfg, es, Look(now));
    KeepIff(Run(cfg, es), now, o);
  }
}
