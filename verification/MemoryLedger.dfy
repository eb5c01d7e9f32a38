/** The in-memory form of the SQL ledger, which extends it and overrides its operations: a
    refused reserve counts as an attempt, a confirm moves any entry that is not confirmed,
    and a release takes effect. Each operation is one step under the object's lock. */
module MemoryLedger {
  import opened DailyLedger
  import opened Runs

  function MemoryReserve(r: Rows, bet: BetId, max: nat): (Rows, bool) {
    var active, x := r.stats.confirmed + r.stats.reserved, r.stats.(attempted := r.stats.attempted + 1);
    if active >= max then (r.(stats := x), false)
    else (Rows(x.(reserved := x.reserved + 1), r.entries + [Slot(bet, active + 1, Reserved)]), true)
  }

  function MemoryConfirm(r: Rows, bet: BetId): Rows {
    var i := FindEntry(r.entries, bet);
    if i == |r.entries| || r.entries[i].status == Confirmed then r
    else Rows(r.stats.(confirmed := r.stats.confirmed + 1, reserved := Lower(r.stats.reserved)),
              r.entries[i := r.entries[i].(status := Confirmed)])
  }

  function MemoryStep(r: Rows, e: Event, max: nat): Rows {
    match e
    case Reserve(bet) => MemoryReserve(r, bet, max).0
    case Confirm(bet) => MemoryConfirm(r, bet)
    case Release(bet) => FreeEntry(r, bet)
  }

  function MemoryRun(es: seq<Event>, max: nat): Rows {
    if es == [] then NO_ROWS else MemoryStep(MemoryRun(es[..|es| - 1], max), es[|es| - 1], max)
  }

  class InMemoryDailyEntryLedger {
    const maxEntries: nat
    var stats: map<Day, Stats>
    var entries: map<Day, seq<Slot>>

    ghost function RowsOf(day: Day): Rows reads this {
      Rows(if day in stats then stats[day] else NO_ROWS.stats, if day in entries then entries[day] else [])
    }

    constructor (maxEntries: nat)
      ensures this.maxEntries == maxEntries && forall d :: RowsOf(d) == NO_ROWS
    {
      this.maxEntries, stats, entries := maxEntries, map[], map[];
    }

    method GetOrCreateStats(day: Day) returns (x: Stats)
      modifies this`stats
      ensures x == old(RowsOf(day)).stats && forall d :: RowsOf(d) == old(RowsOf(d))
    {
      if day !in stats { stats := stats[day := Stats(0, 0, 0, 0)]; }
      x := stats[day];
    }

    method EntriesOf(day: Day) returns (rows: seq<Slot>)
      ensures rows == RowsOf(day).entries
    {
      rows := if day in entries then entries[day] else [];
    }

    method ReserveEntry(day: Day, bet: BetId) returns (ok: bool)
      modifies this
      ensures (RowsOf(day), ok) == MemoryReserve(old(RowsOf(day)), bet, maxEntries)
      ensures forall d :: d != day ==> RowsOf(d) == old(RowsOf(d))
    {
      var x := GetOrCreateStats(day);
      x := x.(attempted := x.attempted + 1);
      var active := x.confirmed + x.reserved;
      if active >= maxEntries {
        stats := stats[day := x];
        return false;
      }
      var dayEntries := EntriesOf(day);
      entries := entries[day := dayEntries + [Slot(bet, active + 1, Reserved)]];
      stats := stats[day := x.(reserved := x.reserved + 1)];
      return true;
    }

    method ConfirmEntry(day: Day, bet: BetId)
      modifies this
      ensures RowsOf(day) == MemoryStep(old(RowsOf(day)), Confirm(bet), maxEntries)
      ensures forall d :: d != day ==> RowsOf(d) == old(RowsOf(d))
    {
      var dayEntries := EntriesOf(day);
      var i := FindEntry(dayEntries, bet);
      if i == |dayEntries| { return; }
      if dayEntries[i].status == Confirmed { return; }
      entries := entries[day := dayEntries[i := dayEntries[i].(status := Confirmed)]];
      assert forall d :: d != day ==> RowsOf(d) == old(RowsOf(d));
      var x := GetOrCreateStats(day);
      stats := stats[day := x.(confirmed := x.confirmed + 1, reserved := Lower(x.reserved))];
    }

    method ReleaseEntry(day: Day, bet: BetId)
      modifies this
      ensures RowsOf(day) == MemoryStep(old(RowsOf(day)), Release(bet), maxEntries)
      ensures forall d :: d != day ==> RowsOf(d) == old(RowsOf(d))
    {
      var dayEntries := EntriesOf(day);
      var i := FindEntry(dayEntries, bet);
      if i == |dayEntries| { return; }
      if dayEntries[i].status == Released || dayEntries[i].status == Failed { return; }
      var wasConfirmed := dayEntries[i].status == Confirmed;
      entries := entries[day := dayEntries[i := dayEntries[i].(status := Released)]];
      assert forall d :: d != day ==> RowsOf(d) == old(RowsOf(d));
      var x := GetOrCreateStats(day);
      x := x.(reserved := Lower(x.reserved), failed := x.failed + 1);
      if wasConfirmed { x := x.(confirmed := Lower(x.confirmed)); }
      stats := stats[day := x];
    }
  }

  // ----- the steps that go wrong -----

  /** A confirm of an entry that has been released. */
  predicate ConfirmsReleased(r: Rows, e: Event) {
    && e.Confirm?
    && var i := FindEntry(r.entries, e.bet);
       i < |r.entries| && r.entries[i].status != Confirmed && r.entries[i].status != Reserved
  }

  predicate Refused(r: Rows, e: Event, max: nat) {
    e.Reserve? && r.stats.confirmed + r.stats.reserved >= max
  }

  predicate Miscounts(r: Rows, e: Event) {
    (ReleasesConfirmed(r, e) || ConfirmsReleased(r, e)) && r.stats.reserved > 0
  }

  predicate LosesAttempt(r: Rows, e: Event, max: nat) {
    || Refused(r, e, max)
    || (ReleasesConfirmed(r, e) && r.stats.reserved > 0)
    || (ConfirmsReleased(r, e) && r.stats.reserved == 0)
  }

  /** The entries that use up the day. */
  function Active(r: Rows): nat { CountIn(r.entries, Confirmed) + CountIn(r.entries, Reserved) }

  /** One entry too many: a released one confirmed on a full day, or one reserved on a full
      day whose counters say otherwise. */
  predicate Overflows(r: Rows, e: Event, max: nat) {
    Active(r) >= max && (ConfirmsReleased(r, e) || (e.Reserve? && !Refused(r, e, max)))
  }

  /** What an operation does to the numbers of entries in a status. */
  lemma ReserveCounts(r: Rows, bet: BetId, max: nat, st: Status)
    ensures CountIn(MemoryReserve(r, bet, max).0.entries, st)
            == CountIn(r.entries, st) + (if st == Reserved && !Refused(r, Reserve(bet), max) then 1 else 0)
  {
    CountAppend(r.entries, Slot(bet, r.stats.confirmed + r.stats.reserved + 1, Reserved), st);
  }

  lemma ConfirmCounts(r: Rows, bet: BetId)
    ensures var i, t := FindEntry(r.entries, bet), MemoryConfirm(r, bet);
            if i == |r.entries| || r.entries[i].status == Confirmed then t == r
            else
              && CountIn(t.entries, Confirmed) == CountIn(r.entries, Confirmed) + 1
              && CountIn(t.entries, Reserved)
                 == CountIn(r.entries, Reserved) - (if r.entries[i].status == Reserved then 1 else 0)
  {
    var i := FindEntry(r.entries, bet);
    if i < |r.entries| {
      CountMove(r.entries, i, Confirmed, Confirmed);
      CountMove(r.entries, i, Confirmed, Reserved);
    }
  }

  lemma ReleaseCounts(r: Rows, bet: BetId)
    ensures Active(FreeEntry(r, bet)) <= Active(r)
  {
    var i := FindEntry(r.entries, bet);
    if i < |r.entries| {
      CountMove(r.entries, i, Released, Confirmed);
      CountMove(r.entries, i, Released, Reserved);
    }
  }

  // ----- one step -----

  lemma CountsStepIff(r: Rows, e: Event, max: nat)
    requires CountsExact(r)
    ensures CountsExact(MemoryStep(r, e, max)) <==> !Miscounts(r, e)
    ensures AttemptsExact(r) ==> (AttemptsExact(MemoryStep(r, e, max)) <==> !LosesAttempt(r, e, max))
  {
    match e
    case Reserve(bet) =>
      ReserveCounts(r, bet, max, Reserved);
      ReserveCounts(r, bet, max, Confirmed);
    case Confirm(bet) =>
      var i := FindEntry(r.entries, bet);
      if i < |r.entries| { CountHas(r.entries, i); }
      ConfirmCounts(r, bet);
    case Release(bet) => FreeEntryExactIff(r, bet);
  }

  /** Whatever the counters say. */
  lemma LimitStepIff(r: Rows, e: Event, max: nat)
    requires Active(r) <= max
    ensures Active(MemoryStep(r, e, max)) <= max <==> !Overflows(r, e, max)
  {
    match e
    case Reserve(bet) =>
      ReserveCounts(r, bet, max, Reserved);
      ReserveCounts(r, bet, max, Confirmed);
    case Confirm(bet) => ConfirmCounts(r, bet);
    case Release(bet) => ReleaseCounts(r, bet);
  }

  lemma AgreesStepIff(b: Bucket, r: Rows, e: Event, max: nat)
    requires SimpleInv(b, max) && Distinct(b.slots) && Agrees(b, r)
    ensures Agrees(SimpleStep(b, e, max).0, MemoryStep(r, e, max))
            <==> !ReleasesConfirmed(r, e) && !ConfirmsReleased(r, e)
  {
    match e
    case Reserve(_) =>
    case Confirm(bet) =>
      SameSlot(b.slots, bet);
      var i := FindEntry(r.entries, bet);
      if i < |r.entries| { assert MemoryConfirm(r, bet).entries[i].status == Confirmed; }
    case Release(bet) => FreeEntryAgreesIff(b, r, bet, max);
  }

  // ----- over every run -----

  lemma MemorySnoc(es: seq<Event>, e: Event, max: nat)
    ensures MemoryRun(es + [e], max) == MemoryStep(MemoryRun(es, max), e, max)
  {
    assert (es + [e])[..|es|] == es;
  }

  ghost function CountersTrue(max: nat): seq<Event> -> bool {
    (es: seq<Event>) => CountsExact(MemoryRun(es, max))
  }

  ghost function Miscounting(max: nat): (seq<Event>, Event) -> bool {
    (es: seq<Event>, e: Event) => Miscounts(MemoryRun(es, max), e)
  }

  /** The counters of confirmed and reserved entries are true all along if and only if no
      confirmed entry is released, and no released one confirmed, while the counter of
      reserved ones is above zero. */
  lemma CountersTrueIff(es: seq<Event>, max: nat)
    ensures Throughout(es, CountersTrue(max)) <==> Nowhere(es, Miscounting(max))
  {
    forall k | 0 <= k < |es| && CountersTrue(max)(es[..k])
      ensures CountersTrue(max)(es[..k] + [es[k]]) <==> !Miscounting(max)(es[..k], es[k])
    {
      MemorySnoc(es[..k], es[k], max);
      CountsStepIff(MemoryRun(es[..k], max), es[k], max);
    }
    IffNowhere(es, CountersTrue(max), Miscounting(max));
  }

  /** What a reserve answers in every run whose counters are true: granted exactly while there
      are fewer entries than the limit, with the next number; a refusal adds no entry, and
      each of them counts as an attempt. */
  lemma ReserveAnswerIff(es: seq<Event>, max: nat, bet: BetId)
    requires Nowhere(es, Miscounting(max))
    ensures Answers(MemoryRun(es, max), bet, max)
  {
    CountersAreTrue(es, max);
    CountedAnswers(MemoryRun(es, max), bet, max);
  }

  ghost predicate Answers(r: Rows, bet: BetId, max: nat) {
    var t := MemoryReserve(r, bet, max);
    && (t.1 <==> Active(r) < max)
    && t.0.stats.attempted == r.stats.attempted + 1
    && t.0.entries == r.entries + (if Active(r) < max then [Slot(bet, Active(r) + 1, Reserved)] else [])
  }

  lemma CountedAnswers(r: Rows, bet: BetId, max: nat)
    requires CountsExact(r)
    ensures Answers(r, bet, max)
  {
  }

  lemma CountersAreTrue(es: seq<Event>, max: nat)
    requires Nowhere(es, Miscounting(max))
    ensures CountsExact(MemoryRun(es, max))
  {
    CountersTrueIff(es, max);
    assert CountersTrue(max)(es[..|es|]) && es[..|es|] == es;
  }

  ghost function AccountTrue(max: nat): seq<Event> -> bool {
    (es: seq<Event>) => Exact(MemoryRun(es, max))
  }

  ghost function Misaccounting(max: nat): (seq<Event>, Event) -> bool {
    (es: seq<Event>, e: Event) => Miscounts(MemoryRun(es, max), e) || LosesAttempt(MemoryRun(es, max), e, max)
  }

  /** All four counters, attempted being confirmed, reserved and failed together, are true
      all along if and only if, besides, no reserve is refused and no released entry is
      confirmed at all. */
  lemma AccountTrueIff(es: seq<Event>, max: nat)
    ensures Throughout(es, AccountTrue(max)) <==> Nowhere(es, Misaccounting(max))
    ensures forall r, e :: Miscounts(r, e) || LosesAttempt(r, e, max) <==>
              Refused(r, e, max) || ConfirmsReleased(r, e) || (ReleasesConfirmed(r, e) && r.stats.reserved > 0)
  {
    forall k | 0 <= k < |es| && AccountTrue(max)(es[..k])
      ensures AccountTrue(max)(es[..k] + [es[k]]) <==> !Misaccounting(max)(es[..k], es[k])
    {
      MemorySnoc(es[..k], es[k], max);
      CountsStepIff(MemoryRun(es[..k], max), es[k], max);
    }
    IffNowhere(es, AccountTrue(max), Misaccounting(max));
  }

  ghost function WithinLimit(max: nat): seq<Event> -> bool {
    (es: seq<Event>) => Active(MemoryRun(es, max)) <= max
  }

  ghost function Overflowing(max: nat): (seq<Event>, Event) -> bool {
    (es: seq<Event>, e: Event) => Overflows(MemoryRun(es, max), e, max)
  }

  /** The daily limit holds all along if and only if no released entry is confirmed, and none
      reserved, on a day that is full by its entries. */
  lemma WithinLimitIff(es: seq<Event>, max: nat)
    ensures Throughout(es, WithinLimit(max)) <==> Nowhere(es, Overflowing(max))
  {
    forall k | 0 <= k < |es| && WithinLimit(max)(es[..k])
      ensures WithinLimit(max)(es[..k] + [es[k]]) <==> !Overflowing(max)(es[..k], es[k])
    {
      MemorySnoc(es[..k], es[k], max);
      LimitStepIff(MemoryRun(es[..k], max), es[k], max);
    }
    IffNowhere(es, WithinLimit(max), Overflowing(max));
  }

  ghost function TrueAndWithin(max: nat): seq<Event> -> bool {
    (es: seq<Event>) => CountsExact(MemoryRun(es, max)) && Active(MemoryRun(es, max)) <= max
  }

  ghost function MiscountingOrFull(max: nat): (seq<Event>, Event) -> bool {
    (es: seq<Event>, e: Event) =>
      var r := MemoryRun(es, max);
      Miscounts(r, e) || (ConfirmsReleased(r, e) && r.stats.confirmed + r.stats.reserved >= max)
  }

  /** Both together, by what the counters show: no miscounting step, and no released entry
      confirmed on a full day. */
  lemma TrueAndWithinIff(es: seq<Event>, max: nat)
    ensures Throughout(es, TrueAndWithin(max)) <==> Nowhere(es, MiscountingOrFull(max))
  {
    forall k | 0 <= k < |es| && TrueAndWithin(max)(es[..k])
      ensures TrueAndWithin(max)(es[..k] + [es[k]]) <==> !MiscountingOrFull(max)(es[..k], es[k])
    {
      MemorySnoc(es[..k], es[k], max);
      CountsStepIff(MemoryRun(es[..k], max), es[k], max);
      LimitStepIff(MemoryRun(es[..k], max), es[k], max);
    }
    IffNowhere(es, TrueAndWithin(max), MiscountingOrFull(max));
  }

  ghost function AgreesWithSimple(max: nat): seq<Event> -> bool {
    (es: seq<Event>) => Agrees(SimpleRun(es, max), MemoryRun(es, max))
  }

  ghost function Diverging(max: nat): (seq<Event>, Event) -> bool {
    (es: seq<Event>, e: Event) => ReleasesConfirmed(MemoryRun(es, max), e) || ConfirmsReleased(MemoryRun(es, max), e)
  }

  /** Over every run with fresh bet ids it has the slots and counters of the simple ledger
      all along if and only if no confirmed entry is released and no released one confirmed. */
  lemma AgreesWithSimpleIff(es: seq<Event>, max: nat)
    requires FreshBets(es)
    ensures Throughout(es, AgreesWithSimple(max)) <==> Nowhere(es, Diverging(max))
  {
    forall k | 0 <= k < |es| && AgreesWithSimple(max)(es[..k])
      ensures AgreesWithSimple(max)(es[..k] + [es[k]]) <==> !Diverging(max)(es[..k], es[k])
    {
      FreshPrefix(es, k);
      FreshMeansDistinct(es[..k], max);
      SimpleLedgerExact(es[..k], max);
      RunsSnoc(es[..k], es[k], max);
      MemorySnoc(es[..k], es[k], max);
      AgreesStepIff(SimpleRun(es[..k], max), MemoryRun(es[..k], max), es[k], max);
    }
    IffNowhere(es, AgreesWithSimple(max), Diverging(max));
  }

  // ----- runs that go wrong -----

  lemma FoundAt(entries: seq<Slot>, i: nat)
    requires i < |entries| && forall j :: 0 <= j < i ==> entries[j].bet != entries[i].bet
    ensures FindEntry(entries, entries[i].bet) == i
  {
    assert FindEntry(entries, entries[i].bet) >= i && FindEntry(entries, entries[i].bet) <= i;
  }

  lemma ReserveNext(es: seq<Event>, max: nat, r: Rows, bet: BetId) returns (t: Rows)
    requires MemoryRun(es, max) == r && r.stats.confirmed + r.stats.reserved < max
    ensures MemoryRun(es + [Reserve(bet)], max) == t
    ensures t == Rows(r.stats.(attempted := r.stats.attempted + 1, reserved := r.stats.reserved + 1),
                      r.entries + [Slot(bet, r.stats.confirmed + r.stats.reserved + 1, Reserved)])
  {
    MemorySnoc(es, Reserve(bet), max);
    t := MemoryRun(es + [Reserve(bet)], max);
  }

  lemma ConfirmNext(es: seq<Event>, max: nat, r: Rows, i: nat) returns (t: Rows)
    requires MemoryRun(es, max) == r && i < |r.entries| && r.entries[i].status != Confirmed
    requires forall j :: 0 <= j < i ==> r.entries[j].bet != r.entries[i].bet
    ensures MemoryRun(es + [Confirm(r.entries[i].bet)], max) == t
    ensures t == Rows(r.stats.(confirmed := r.stats.confirmed + 1, reserved := Lower(r.stats.reserved)),
                      r.entries[i := r.entries[i].(status := Confirmed)])
  {
    FoundAt(r.entries, i);
    MemorySnoc(es, Confirm(r.entries[i].bet), max);
    t := MemoryRun(es + [Confirm(r.entries[i].bet)], max);
  }

  lemma ReleaseNext(es: seq<Event>, max: nat, r: Rows, i: nat) returns (t: Rows)
    requires MemoryRun(es, max) == r && i < |r.entries|
    requires r.entries[i].status == Reserved || r.entries[i].status == Confirmed
    requires forall j :: 0 <= j < i ==> r.entries[j].bet != r.entries[i].bet
    ensures MemoryRun(es + [Release(r.entries[i].bet)], max) == t
    ensures t.entries == r.entries[i := r.entries[i].(status := Released)]
    ensures t.stats == Stats(
              if r.entries[i].status == Confirmed then Lower(r.stats.confirmed) else r.stats.confirmed,
              Lower(r.stats.reserved), r.stats.attempted, r.stats.failed + 1)
  {
    FoundAt(r.entries, i);
    MemorySnoc(es, Release(r.entries[i].bet), max);
    t := MemoryRun(es + [Release(r.entries[i].bet)], max);
  }

  /** A slot is freed that a confirmed entry held, while b is reserved. */
  lemma ReleaseConfirmed(a: BetId, b: BetId) returns (es: seq<Event>)
    ensures es == [] + [Reserve(a)] + [Confirm(a)] + [Reserve(b)] + [Release(a)]
    ensures MemoryRun(es, 2) == Rows(Stats(0, 0, 2, 1), [Slot(a, 1, Released), Slot(b, 2, Reserved)])
  {
    var r := ReserveNext([], 2, NO_ROWS, a);
    es := [] + [Reserve(a)];
    r := ConfirmNext(es, 2, r, 0);
    es := es + [Confirm(a)];
    r := ReserveNext(es, 2, r, b);
    es := es + [Reserve(b)];
    r := ReleaseNext(es, 2, r, 0);
    es := es + [Release(a)];
  }

  lemma ReserveTwoMore(start: seq<Event>, a: BetId, b: BetId, c: BetId, d: BetId) returns (es: seq<Event>)
    requires MemoryRun(start, 2) == Rows(Stats(0, 0, 2, 1), [Slot(a, 1, Released), Slot(b, 2, Reserved)])
    ensures es == start + [Reserve(c)] + [Reserve(d)]
    ensures MemoryRun(es, 2) == Rows(Stats(0, 2, 4, 1), [Slot(a, 1, Released), Slot(b, 2, Reserved),
                                                        Slot(c, 1, Reserved), Slot(d, 2, Reserved)])
  {
    var r := ReserveNext(start, 2, MemoryRun(start, 2), c);
    es := start + [Reserve(c)];
    r := ReserveNext(es, 2, r, d);
    es := es + [Reserve(d)];
  }

  lemma ConfirmLastThree(start: seq<Event>, a: BetId, b: BetId, c: BetId, d: BetId) returns (es: seq<Event>)
    requires a != b && a != c && a != d && b != c && b != d && c != d
    requires MemoryRun(start, 2) == Rows(Stats(0, 2, 4, 1), [Slot(a, 1, Released), Slot(b, 2, Reserved),
                                                            Slot(c, 1, Reserved), Slot(d, 2, Reserved)])
    ensures es == start + [Confirm(b)] + [Confirm(c)] + [Confirm(d)]
    ensures MemoryRun(es, 2).entries == [Slot(a, 1, Released), Slot(b, 2, Confirmed), Slot(c, 1, Confirmed),
                                         Slot(d, 2, Confirmed)]
  {
    var r := ConfirmNext(start, 2, MemoryRun(start, 2), 1);
    es := start + [Confirm(b)];
    r := ConfirmNext(es, 2, r, 2);
    es := es + [Confirm(c)];
    r := ConfirmNext(es, 2, r, 3);
    es := es + [Confirm(d)];
  }

  lemma CountTwo(x: Slot, y: Slot, st: Status)
    ensures CountIn([x, y], st) == (if x.status == st then 1 else 0) + (if y.status == st then 1 else 0)
  {
    CountAppend([], x, st);
    CountAppend([x], y, st);
    assert [] + [x] == [x] && [x] + [y] == [x, y];
  }

  lemma CountFour(x: Slot, y: Slot, z: Slot, w: Slot, st: Status)
    ensures CountIn([x, y, z, w], st)
            == CountIn([x, y], st) + (if z.status == st then 1 else 0) + (if w.status == st then 1 else 0)
  {
    CountAppend([x, y], z, st);
    CountAppend([x, y, z], w, st);
    assert [x, y] + [z] == [x, y, z] && [x, y, z] + [w] == [x, y, z, w];
  }

  /** A confirmed entry is released while another is reserved: with a limit of two, three of
      any four bets are confirmed in the end. */
  lemma ConfirmedReleaseBreaksLimit(a: BetId, b: BetId, c: BetId, d: BetId) returns (es: seq<Event>)
    requires a != b && a != c && a != d && b != c && b != d && c != d
    ensures es == [] + [Reserve(a)] + [Confirm(a)] + [Reserve(b)] + [Release(a)]
                  + [Reserve(c)] + [Reserve(d)] + [Confirm(b)] + [Confirm(c)] + [Confirm(d)]
    ensures FreshBets(es) && CountIn(MemoryRun(es, 2).entries, Confirmed) == 3
  {
    var freed := ReleaseConfirmed(a, b);
    var full := ReserveTwoMore(freed, a, b, c, d);
    es := ConfirmLastThree(full, a, b, c, d);
    CountTwo(Slot(a, 1, Released), Slot(b, 2, Confirmed), Confirmed);
    CountFour(Slot(a, 1, Released), Slot(b, 2, Confirmed), Slot(c, 1, Confirmed), Slot(d, 2, Confirmed), Confirmed);
  }

  lemma ReleaseThenConfirm(a: BetId, b: BetId) returns (es: seq<Event>)
    requires a != b
    ensures es == [] + [Reserve(a)] + [Release(a)] + [Reserve(b)] + [Confirm(a)] + [Confirm(b)]
    ensures MemoryRun(es, 1).entries == [Slot(a, 1, Confirmed), Slot(b, 1, Confirmed)]
  {
    var r := ReserveNext([], 1, NO_ROWS, a);
    es := [] + [Reserve(a)];
    r := ReleaseNext(es, 1, r, 0);
    es := es + [Release(a)];
    r := ReserveNext(es, 1, r, b);
    es := es + [Reserve(b)];
    assert r == Rows(Stats(0, 1, 2, 1), [Slot(a, 1, Released), Slot(b, 1, Reserved)]);
    r := ConfirmNext(es, 1, r, 0);
    es := es + [Confirm(a)];
    r := ConfirmNext(es, 1, r, 1);
    es := es + [Confirm(b)];
  }

  /** No confirmed entry is released, but a released one is confirmed: with a limit of one,
      any two bets are confirmed in the end. */
  lemma ReleasedConfirmBreaksLimit(a: BetId, b: BetId) returns (es: seq<Event>)
    requires a != b
    ensures es == [] + [Reserve(a)] + [Release(a)] + [Reserve(b)] + [Confirm(a)] + [Confirm(b)]
    ensures FreshBets(es) && CountIn(MemoryRun(es, 1).entries, Confirmed) == 2
  {
    es := ReleaseThenConfirm(a, b);
    CountTwo(Slot(a, 1, Confirmed), Slot(b, 1, Confirmed), Confirmed);
  }

  /** A refused reserve is an attempt that is neither confirmed, reserved nor failed. */
  lemma RefusedReserveIsUnaccounted()
    ensures var r := MemoryRun([] + [Reserve("a")], 0);
            r.stats == Stats(0, 0, 1, 0) && !AttemptsExact(r)
  {
    MemorySnoc([], Reserve("a"), 0);
  }
}
