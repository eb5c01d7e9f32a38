/** The two daily entry ledgers: the simple one in memory, and the SQL one with counter rows
    and entry rows. Each operation is one atomic step: the simple ledger runs it under the
    day's promise-chain lock, the other as one serializable transaction. */
module DailyLedger {
  import opened Runs

  type Day = string
  type BetId = string

  datatype Status = Reserved | Confirmed | Released | Failed
  datatype Slot = Slot(bet: BetId, number: nat, status: Status)

  function CountIn(slots: seq<Slot>, st: Status): nat {
    if slots == [] then 0
    else CountIn(slots[..|slots| - 1], st) + (if slots[|slots| - 1].status == st then 1 else 0)
  }

  /** `Math.max(0, n - 1)` and GREATEST(n - 1, 0). */
  function Lower(n: nat): nat { if n > 0 then n - 1 else 0 }

  datatype Event = Reserve(bet: BetId) | Confirm(bet: BetId) | Release(bet: BetId)

  // ----- the simple ledger -----

  datatype Bucket = Bucket(confirmed: nat, reserved: nat, slots: seq<Slot>)

  const EMPTY := Bucket(0, 0, [])

  /** The first reserved slot of a bet, or the length. */
  function FindReserved(slots: seq<Slot>, bet: BetId): (i: nat)
    ensures i <= |slots|
    ensures i < |slots| ==> slots[i].bet == bet && slots[i].status == Reserved
    ensures forall j :: 0 <= j < i ==> slots[j].bet != bet || slots[j].status != Reserved
  {
    if slots == [] || (slots[0].bet == bet && slots[0].status == Reserved) then 0
    else 1 + FindReserved(slots[1..], bet)
  }

  /** The bucket after an event, and whether the operation succeeded. */
  function SimpleStep(b: Bucket, e: Event, max: nat): (Bucket, bool) {
    match e
    case Reserve(bet) =>
      var active := b.confirmed + b.reserved;
      if active >= max then (b, false)
      else (Bucket(b.confirmed, b.reserved + 1, b.slots + [Slot(bet, active + 1, Reserved)]), true)
    case Confirm(bet) =>
      var i := FindReserved(b.slots, bet);
      if i == |b.slots| then (b, false)
      else (Bucket(b.confirmed + 1, Lower(b.reserved), b.slots[i := b.slots[i].(status := Confirmed)]), true)
    case Release(bet) =>
      var i := FindReserved(b.slots, bet);
      if i == |b.slots| then (b, false)
      else (Bucket(b.confirmed, Lower(b.reserved), b.slots[i := b.slots[i].(status := Released)]), true)
  }

  function SimpleRun(es: seq<Event>, max: nat): Bucket {
    if es == [] then EMPTY else SimpleStep(SimpleRun(es[..|es| - 1], max), es[|es| - 1], max).0
  }

  class InMemoryDailyEntryLedger {
    const maxEntries: nat
    var days: map<Day, Bucket>

    ghost function BucketOf(day: Day): Bucket reads this {
      if day in days then days[day] else EMPTY
    }

    constructor (maxEntries: nat)
      ensures this.maxEntries == maxEntries && days == map[]
    {
      this.maxEntries, days := maxEntries, map[];
    }

    method GetBucket(day: Day) returns (b: Bucket)
      modifies this
      ensures b == old(BucketOf(day)) && day in days && days[day] == b
      ensures forall d :: BucketOf(d) == old(BucketOf(d))
    {
      if day !in days { days := days[day := EMPTY]; }
      b := days[day];
    }

    method ReserveSlot(day: Day, bet: BetId) returns (ok: bool)
      modifies this
      ensures (BucketOf(day), ok) == SimpleStep(old(BucketOf(day)), Reserve(bet), maxEntries)
      ensures forall d :: d != day ==> BucketOf(d) == old(BucketOf(d))
    {
      var b := GetBucket(day);
      var active := b.confirmed + b.reserved;
      if active >= maxEntries { return false; }
      days := days[day := b.(slots := b.slots + [Slot(bet, active + 1, Reserved)], reserved := b.reserved + 1)];
      return true;
    }

    method ConfirmSlot(day: Day, bet: BetId) returns (ok: bool)
      modifies this
      ensures (BucketOf(day), ok) == SimpleStep(old(BucketOf(day)), Confirm(bet), maxEntries)
      ensures forall d :: d != day ==> BucketOf(d) == old(BucketOf(d))
    {
      var b := GetBucket(day);
      var i := FindReserved(b.slots, bet);
      if i == |b.slots| { return false; }
      days := days[day := Bucket(b.confirmed + 1, if b.reserved > 0 then b.reserved - 1 else 0,
                                 b.slots[i := b.slots[i].(status := Confirmed)])];
      return true;
    }

    method ReleaseSlot(day: Day, bet: BetId) returns (ok: bool)
      modifies this
      ensures (BucketOf(day), ok) == SimpleStep(old(BucketOf(day)), Release(bet), maxEntries)
      ensures forall d :: d != day ==> BucketOf(d) == old(BucketOf(d))
    {
      var b := GetBucket(day);
      var i := FindReserved(b.slots, bet);
      if i == |b.slots| { return false; }
      days := days[day := Bucket(b.confirmed, if b.reserved > 0 then b.reserved - 1 else 0,
                                 b.slots[i := b.slots[i].(status := Released)])];
      return true;
    }
  }

  /** The counters are the numbers of slots, together within the limit, and so are the
      slot numbers. */
  ghost predicate SimpleInv(b: Bucket, max: nat) {
    && (forall i :: 0 <= i < |b.slots| ==> 1 <= b.slots[i].number <= max)
    && b.reserved == CountIn(b.slots, Reserved)
    && b.confirmed == CountIn(b.slots, Confirmed)
    && b.reserved + b.confirmed <= max
  }

  lemma CountAppend(slots: seq<Slot>, x: Slot, st: Status)
    ensures CountIn(slots + [x], st) == CountIn(slots, st) + (if x.status == st then 1 else 0)
  {
    assert (slots + [x])[..|slots|] == slots;
  }

  lemma {:induction false} CountMove(slots: seq<Slot>, i: nat, to: Status, st: Status)
    requires i < |slots|
    ensures CountIn(slots[i := slots[i].(status := to)], st)
            == CountIn(slots, st) - (if slots[i].status == st then 1 else 0) + (if to == st then 1 else 0)
  {
    var n := |slots| - 1;
    var moved := slots[i := slots[i].(status := to)];
    if i == n {
      assert moved[..n] == slots[..n];
    } else {
      assert moved[..n] == slots[..n][i := slots[..n][i].(status := to)];
      CountMove(slots[..n], i, to, st);
    }
  }

  lemma {:induction false} CountHas(slots: seq<Slot>, i: nat)
    requires i < |slots|
    ensures CountIn(slots, slots[i].status) >= 1
  {
    if i < |slots| - 1 { CountHas(slots[..|slots| - 1], i); }
  }

  lemma SimpleMoveKeepsInv(b: Bucket, e: Event, max: nat)
    requires SimpleInv(b, max) && !e.Reserve?
    ensures SimpleInv(SimpleStep(b, e, max).0, max)
  {
    var i := FindReserved(b.slots, e.bet);
    var to := if e.Confirm? then Confirmed else Released;
    if i < |b.slots| {
      CountHas(b.slots, i);
      CountMove(b.slots, i, to, Reserved);
      CountMove(b.slots, i, to, Confirmed);
    }
  }

  lemma SimpleStepKeepsInv(b: Bucket, e: Event, max: nat)
    requires SimpleInv(b, max)
    ensures SimpleInv(SimpleStep(b, e, max).0, max)
  {
    if e.Reserve? {
      var x := Slot(e.bet, b.confirmed + b.reserved + 1, Reserved);
      CountAppend(b.slots, x, Reserved);
      CountAppend(b.slots, x, Confirmed);
    } else {
      SimpleMoveKeepsInv(b, e, max);
    }
  }

  /** Over every run of the simple ledger. */
  lemma {:induction false} SimpleLedgerExact(es: seq<Event>, max: nat)
    ensures SimpleInv(SimpleRun(es, max), max)
  {
    if es != [] {
      SimpleLedgerExact(es[..|es| - 1], max);
      SimpleStepKeepsInv(SimpleRun(es[..|es| - 1], max), es[|es| - 1], max);
    }
  }

  // ----- the SQL ledger -----

  datatype Stats = Stats(confirmed: nat, reserved: nat, attempted: nat, failed: nat)

  /** The counter row and the entry rows of one day. */
  datatype Rows = Rows(stats: Stats, entries: seq<Slot>)

  /** `Rejected` is the database's refusal of a statement, which rolls the call back. */
  datatype Outcome = Done | Full | NotFound | Conflict | Rejected

  const NO_ROWS := Rows(Stats(0, 0, 0, 0), [])

  /** The first row of a bet, or the length. */
  function FindEntry(entries: seq<Slot>, bet: BetId): (i: nat)
    ensures i <= |entries|
    ensures i < |entries| ==> entries[i].bet == bet
    ensures forall j :: 0 <= j < i ==> entries[j].bet != bet
  {
    if entries == [] || entries[0].bet == bet then 0 else 1 + FindEntry(entries[1..], bet)
  }

  function SqlReserve(r: Rows, bet: BetId, max: nat): (Rows, Outcome) {
    var active := r.stats.confirmed + r.stats.reserved;
    if active >= max then (r, Full)
    else (Rows(r.stats.(reserved := r.stats.reserved + 1, attempted := r.stats.attempted + 1),
               r.entries + [Slot(bet, active + 1, Reserved)]), Done)
  }

  function SqlConfirm(r: Rows, bet: BetId): (Rows, Outcome) {
    var i := FindEntry(r.entries, bet);
    if i == |r.entries| then (r, NotFound)
    else if r.entries[i].status == Confirmed then (r, Done)
    else if r.entries[i].status != Reserved then (r, Conflict)
    else (Rows(r.stats.(confirmed := r.stats.confirmed + 1, reserved := Lower(r.stats.reserved)),
               r.entries[i := r.entries[i].(status := Confirmed)]), Done)
  }

  /** The release as written: its first UPDATE names a third parameter and is given two. */
  function SqlRelease(r: Rows, bet: BetId): Outcome {
    var i := FindEntry(r.entries, bet);
    if i == |r.entries| then Done
    else if r.entries[i].status == Released || r.entries[i].status == Failed then Done
    else Rejected
  }

  function SqlStep(r: Rows, e: Event, max: nat): (Rows, Outcome) {
    match e
    case Reserve(bet) => SqlReserve(r, bet, max)
    case Confirm(bet) => SqlConfirm(r, bet)
    case Release(bet) => (r, SqlRelease(r, bet))
  }

  function SqlRun(es: seq<Event>, max: nat): Rows {
    if es == [] then NO_ROWS else SqlStep(SqlRun(es[..|es| - 1], max), es[|es| - 1], max).0
  }

  class DailyEntryLedger {
    const maxEntries: nat
    var stats: map<Day, Stats>
    var entries: map<Day, seq<Slot>>

    ghost function RowsOf(day: Day): Rows reads this {
      Rows(if day in stats then stats[day] else NO_ROWS.stats, if day in entries then entries[day] else [])
    }

    constructor (maxEntries: nat)
      ensures this.maxEntries == maxEntries && forall d :: RowsOf(d) == NO_ROWS
    {
      this.maxEntries, stats, entries := maxEntries, map[], map[];
    }

    /** INSERT ... ON CONFLICT DO NOTHING, then SELECT ... FOR UPDATE. */
    method LockDailyStats(day: Day) returns (x: Stats)
      modifies this`stats
      ensures x == old(RowsOf(day)).stats && forall d :: RowsOf(d) == old(RowsOf(d))
    {
      if day !in stats { stats := stats[day := Stats(0, 0, 0, 0)]; }
      x := stats[day];
    }

    method SelectEntries(day: Day) returns (rows: seq<Slot>)
      ensures rows == RowsOf(day).entries
    {
      rows := if day in entries then entries[day] else [];
    }

    method ReserveEntry(day: Day, bet: BetId) returns (o: Outcome)
      modifies this
      ensures (RowsOf(day), o) == SqlStep(old(RowsOf(day)), Reserve(bet), maxEntries)
      ensures forall d :: d != day ==> RowsOf(d) == old(RowsOf(d))
    {
      var x := LockDailyStats(day);
      var active := x.confirmed + x.reserved;
      if active >= maxEntries { return Full; }
      var rows := SelectEntries(day);
      entries := entries[day := rows + [Slot(bet, active + 1, Reserved)]];
      stats := stats[day := x.(reserved := x.reserved + 1, attempted := x.attempted + 1)];
      return Done;
    }

    method ConfirmEntry(day: Day, bet: BetId) returns (o: Outcome)
      modifies this
      ensures (RowsOf(day), o) == SqlStep(old(RowsOf(day)), Confirm(bet), maxEntries)
      ensures forall d :: d != day ==> RowsOf(d) == old(RowsOf(d))
    {
      var rows := SelectEntries(day);
      var i := FindEntry(rows, bet);
      if i == |rows| { return NotFound; }
      if rows[i].status == Confirmed { return Done; }
      if rows[i].status != Reserved { return Conflict; }
      entries := entries[day := rows[i := rows[i].(status := Confirmed)]];
      assert forall d :: d != day ==> RowsOf(d) == old(RowsOf(d));
      var x := LockDailyStats(day);
      stats := stats[day := x.(confirmed := x.confirmed + 1, reserved := Lower(x.reserved))];
      return Done;
    }

    /** As written: the first UPDATE of a live entry is rejected, so nothing changes. */
    method ReleaseEntry(day: Day, bet: BetId) returns (o: Outcome)
      ensures (RowsOf(day), o) == SqlStep(RowsOf(day), Release(bet), maxEntries)
    {
      var rows := SelectEntries(day);
      var i := FindEntry(rows, bet);
      if i == |rows| { return Done; }
      if rows[i].status == Released || rows[i].status == Failed { return Done; }
      return Rejected;
    }
  }

  // ----- what the counters say -----

  ghost predicate CountsExact(r: Rows) {
    r.stats.confirmed == CountIn(r.entries, Confirmed) && r.stats.reserved == CountIn(r.entries, Reserved)
  }

  ghost predicate AttemptsExact(r: Rows) {
    r.stats.attempted == r.stats.confirmed + r.stats.reserved + r.stats.failed
  }

  ghost predicate Exact(r: Rows) { CountsExact(r) && AttemptsExact(r) }

  lemma ReserveStaysExact(r: Rows, bet: BetId, max: nat)
    requires Exact(r)
    ensures Exact(SqlReserve(r, bet, max).0)
  {
    var x := Slot(bet, r.stats.confirmed + r.stats.reserved + 1, Reserved);
    CountAppend(r.entries, x, Reserved);
    CountAppend(r.entries, x, Confirmed);
  }

  lemma ConfirmStaysExact(r: Rows, bet: BetId)
    requires Exact(r)
    ensures Exact(SqlConfirm(r, bet).0)
    ensures SqlConfirm(r, bet).0.stats.confirmed + SqlConfirm(r, bet).0.stats.reserved
            == r.stats.confirmed + r.stats.reserved
  {
    var i := FindEntry(r.entries, bet);
    if i < |r.entries| {
      CountHas(r.entries, i);
      CountMove(r.entries, i, Confirmed, Reserved);
      CountMove(r.entries, i, Confirmed, Confirmed);
    }
  }

  /** On every run of the SQL ledger its counters are true and the daily limit holds; but no
      slot is ever freed: whatever has been attempted stays confirmed or reserved. */
  lemma {:induction false} SqlNeverFrees(es: seq<Event>, max: nat)
    ensures var r := SqlRun(es, max);
            && Exact(r) && r.stats.confirmed + r.stats.reserved <= max
            && r.stats.attempted == r.stats.confirmed + r.stats.reserved == |r.entries|
  {
    if es != [] {
      SqlNeverFrees(es[..|es| - 1], max);
      match es[|es| - 1]
      case Reserve(bet) => ReserveStaysExact(SqlRun(es[..|es| - 1], max), bet, max);
      case Confirm(bet) => ConfirmStaysExact(SqlRun(es[..|es| - 1], max), bet);
      case Release(_) =>
    }
  }

  // ----- the SQL ledger against the simple one -----

  /** No bet id is reserved twice. */
  predicate FreshBets(es: seq<Event>) {
    forall i, j :: 0 <= i < j < |es| && es[i].Reserve? && es[j].Reserve? ==> es[i].bet != es[j].bet
  }

  ghost predicate Distinct(slots: seq<Slot>) {
    forall i, j :: 0 <= i < j < |slots| ==> slots[i].bet != slots[j].bet
  }

  /** The same slots and counters. */
  ghost predicate Agrees(b: Bucket, r: Rows) {
    r.entries == b.slots && r.stats.confirmed == b.confirmed && r.stats.reserved == b.reserved
  }

  /** The event makes the simple ledger free a slot. */
  predicate FreesSlot(b: Bucket, e: Event) {
    e.Release? && FindReserved(b.slots, e.bet) < |b.slots|
  }

  lemma SameSlot(slots: seq<Slot>, bet: BetId)
    requires Distinct(slots)
    ensures var i, j := FindReserved(slots, bet), FindEntry(slots, bet);
            if j < |slots| && slots[j].status == Reserved then i == j else i == |slots|
  {
  }

  lemma SimpleStepKeepsDistinct(b: Bucket, e: Event, max: nat)
    requires Distinct(b.slots)
    requires e.Reserve? ==> forall i :: 0 <= i < |b.slots| ==> b.slots[i].bet != e.bet
    ensures Distinct(SimpleStep(b, e, max).0.slots)
  {
  }

  lemma {:induction false} SlotsWereReserved(es: seq<Event>, max: nat, i: nat) returns (k: nat)
    requires i < |SimpleRun(es, max).slots|
    ensures k < |es| && es[k] == Reserve(SimpleRun(es, max).slots[i].bet)
  {
    var p := es[..|es| - 1];
    if i < |SimpleRun(p, max).slots| {
      k := SlotsWereReserved(p, max, i);
    } else {
      k := |es| - 1;
    }
  }

  lemma FreshAfter(es: seq<Event>, e: Event, max: nat)
    requires FreshBets(es + [e]) && e.Reserve?
    ensures forall i :: 0 <= i < |SimpleRun(es, max).slots| ==> SimpleRun(es, max).slots[i].bet != e.bet
  {
    forall i | 0 <= i < |SimpleRun(es, max).slots| ensures SimpleRun(es, max).slots[i].bet != e.bet {
      var k := SlotsWereReserved(es, max, i);
      assert (es + [e])[k] == es[k] && (es + [e])[|es|] == e;
    }
  }

  lemma {:induction false} FreshMeansDistinct(es: seq<Event>, max: nat)
    requires FreshBets(es)
    ensures Distinct(SimpleRun(es, max).slots)
  {
    if es != [] {
      var p, e := es[..|es| - 1], es[|es| - 1];
      assert es == p + [e];
      FreshMeansDistinct(p, max);
      if e.Reserve? { FreshAfter(p, e, max); }
      SimpleStepKeepsDistinct(SimpleRun(p, max), e, max);
    }
  }

  lemma ConfirmAgrees(b: Bucket, r: Rows, bet: BetId, max: nat)
    requires SimpleInv(b, max) && Distinct(b.slots) && Agrees(b, r)
    ensures var (b', ok), (r', o) := SimpleStep(b, Confirm(bet), max), SqlConfirm(r, bet);
            Agrees(b', r') && (ok <==> o == Done && r' != r)
  {
    SameSlot(b.slots, bet);
    var i := FindReserved(b.slots, bet);
    if i < |b.slots| {
      CountHas(b.slots, i);
      assert r.entries[i].status == Reserved && SqlConfirm(r, bet).0.entries[i].status == Confirmed;
    }
  }

  /** One step from agreeing ledgers: reserve and confirm give the same answer, a confirm
      that moves nothing being an error or a repetition in the one and false in the other;
      and the ledgers still agree if and only if the simple one has freed no slot. */
  lemma SqlStepAgreesIff(b: Bucket, r: Rows, e: Event, max: nat)
    requires SimpleInv(b, max) && Distinct(b.slots) && Agrees(b, r)
    ensures var (b', ok), (r', o) := SimpleStep(b, e, max), SqlStep(r, e, max);
            && (Agrees(b', r') <==> !FreesSlot(b, e))
            && (e.Reserve? ==> (ok <==> o == Done))
            && (e.Confirm? ==> (ok <==> o == Done && r' != r))
  {
    match e
    case Reserve(_) =>
    case Confirm(bet) => ConfirmAgrees(b, r, bet, max);
    case Release(bet) =>
      var i := FindReserved(b.slots, bet);
      if i < |b.slots| { assert SimpleStep(b, e, max).0.slots[i].status == Released; }
  }

  ghost function SqlAgrees(max: nat): seq<Event> -> bool {
    (es: seq<Event>) => Agrees(SimpleRun(es, max), SqlRun(es, max))
  }

  ghost function SimpleFrees(max: nat): (seq<Event>, Event) -> bool {
    (es: seq<Event>, e: Event) => FreesSlot(SimpleRun(es, max), e)
  }

  lemma FreshPrefix(es: seq<Event>, k: nat)
    requires FreshBets(es) && k < |es|
    ensures FreshBets(es[..k])
  {
  }

  lemma RunsSnoc(es: seq<Event>, e: Event, max: nat)
    ensures SimpleRun(es + [e], max) == SimpleStep(SimpleRun(es, max), e, max).0
    ensures SqlRun(es + [e], max) == SqlStep(SqlRun(es, max), e, max).0
    ensures RepairedRun(es + [e], max) == RepairedStep(RepairedRun(es, max), e, max)
  {
    assert (es + [e])[..|es|] == es;
  }

  /** Over every run with fresh bet ids: the SQL ledger, as written, has the slots and
      counters of the simple one all along if and only if the simple one frees no slot. */
  lemma SqlAgreesIff(es: seq<Event>, max: nat)
    requires FreshBets(es)
    ensures Throughout(es, SqlAgrees(max)) <==> Nowhere(es, SimpleFrees(max))
  {
    forall k | 0 <= k < |es| && SqlAgrees(max)(es[..k])
      ensures SqlAgrees(max)(es[..k] + [es[k]]) <==> !SimpleFrees(max)(es[..k], es[k])
    {
      FreshPrefix(es, k);
      FreshMeansDistinct(es[..k], max);
      SimpleLedgerExact(es[..k], max);
      RunsSnoc(es[..k], es[k], max);
      SqlStepAgreesIff(SimpleRun(es[..k], max), SqlRun(es[..k], max), es[k], max);
    }
    IffNowhere(es, SqlAgrees(max), SimpleFrees(max));
  }

  // ----- the SQL ledger with the parameter list repaired -----

  /** What the statements of `release` do to the rows, once the first one is accepted. */
  function FreeEntry(r: Rows, bet: BetId): Rows {
    var i := FindEntry(r.entries, bet);
    if i == |r.entries| then r
    else if r.entries[i].status == Released || r.entries[i].status == Failed then r
    else
      var x := r.stats.(reserved := Lower(r.stats.reserved), failed := r.stats.failed + 1);
      Rows(if r.entries[i].status == Confirmed then x.(confirmed := Lower(x.confirmed)) else x,
           r.entries[i := r.entries[i].(status := Released)])
  }

  function RepairedStep(r: Rows, e: Event, max: nat): Rows {
    if e.Release? then FreeEntry(r, e.bet) else SqlStep(r, e, max).0
  }

  function RepairedRun(es: seq<Event>, max: nat): Rows {
    if es == [] then NO_ROWS else RepairedStep(RepairedRun(es[..|es| - 1], max), es[|es| - 1], max)
  }

  predicate ReleasesConfirmed(r: Rows, e: Event) {
    e.Release? && var i := FindEntry(r.entries, e.bet); i < |r.entries| && r.entries[i].status == Confirmed
  }

  /** The release that miscounts: of a confirmed slot, while another slot is reserved. */
  predicate ReleaseMiscounts(r: Rows, e: Event) { ReleasesConfirmed(r, e) && r.stats.reserved > 0 }

  /** From true slot counters, a release keeps them true if and only if it is not of that
      kind; likewise the account of attempts. */
  lemma FreeEntryExactIff(r: Rows, bet: BetId)
    requires CountsExact(r)
    ensures CountsExact(FreeEntry(r, bet)) <==> !ReleaseMiscounts(r, Release(bet))
    ensures AttemptsExact(r) ==> (AttemptsExact(FreeEntry(r, bet)) <==> !ReleaseMiscounts(r, Release(bet)))
  {
    var i := FindEntry(r.entries, bet);
    if i < |r.entries| {
      CountHas(r.entries, i);
      CountMove(r.entries, i, Released, Confirmed);
      CountMove(r.entries, i, Released, Reserved);
    }
  }

  lemma RepairedStepExactIff(r: Rows, e: Event, max: nat)
    requires Exact(r)
    ensures Exact(RepairedStep(r, e, max)) <==> !ReleaseMiscounts(r, e)
  {
    match e
    case Reserve(bet) => ReserveStaysExact(r, bet, max);
    case Confirm(bet) => ConfirmStaysExact(r, bet);
    case Release(bet) => FreeEntryExactIff(r, bet);
  }

  ghost function RepairedExact(max: nat): seq<Event> -> bool {
    (es: seq<Event>) => Exact(RepairedRun(es, max))
  }

  ghost function RepairedMiscounts(max: nat): (seq<Event>, Event) -> bool {
    (es: seq<Event>, e: Event) => ReleaseMiscounts(RepairedRun(es, max), e)
  }

  /** With the parameter list repaired, over every run, bet ids repeated or not: the counter
      row is true all along if and only if no release is of that kind. */
  lemma RepairedExactIff(es: seq<Event>, max: nat)
    ensures Throughout(es, RepairedExact(max)) <==> Nowhere(es, RepairedMiscounts(max))
  {
    forall k | 0 <= k < |es| && RepairedExact(max)(es[..k])
      ensures RepairedExact(max)(es[..k] + [es[k]]) <==> !RepairedMiscounts(max)(es[..k], es[k])
    {
      RunsSnoc(es[..k], es[k], max);
      RepairedStepExactIff(RepairedRun(es[..k], max), es[k], max);
    }
    IffNowhere(es, RepairedExact(max), RepairedMiscounts(max));
  }

  lemma RepairedStepWithinLimit(r: Rows, e: Event, max: nat)
    requires Exact(r) && r.stats.confirmed + r.stats.reserved <= max
    ensures RepairedStep(r, e, max).stats.confirmed + RepairedStep(r, e, max).stats.reserved <= max
  {
    if e.Confirm? { ConfirmStaysExact(r, e.bet); }
  }

  /** And on all those runs the daily limit holds. */
  lemma {:induction false} RepairedWithinLimit(es: seq<Event>, max: nat)
    requires Nowhere(es, RepairedMiscounts(max))
    ensures var r := RepairedRun(es, max);
            Exact(r) && CountIn(r.entries, Confirmed) + CountIn(r.entries, Reserved) <= max
  {
    if es != [] {
      var p, e := es[..|es| - 1], es[|es| - 1];
      assert es == p + [e];
      NowhereSnoc(p, e, RepairedMiscounts(max));
      RepairedWithinLimit(p, max);
      RepairedStepExactIff(RepairedRun(p, max), e, max);
      RepairedStepWithinLimit(RepairedRun(p, max), e, max);
    }
  }

  lemma FreeEntryAgreesIff(b: Bucket, r: Rows, bet: BetId, max: nat)
    requires SimpleInv(b, max) && Distinct(b.slots) && Agrees(b, r)
    ensures Agrees(SimpleStep(b, Release(bet), max).0, FreeEntry(r, bet)) <==> !ReleasesConfirmed(r, Release(bet))
    ensures !ReleasesConfirmed(r, Release(bet)) ==> (SimpleStep(b, Release(bet), max).1 <==> FreeEntry(r, bet) != r)
  {
    SameSlot(b.slots, bet);
    var i := FindEntry(r.entries, bet);
    if i < |r.entries| && (r.entries[i].status == Confirmed || r.entries[i].status == Reserved) {
      assert FreeEntry(r, bet).entries[i].status == Released;
    }
  }

  ghost function RepairedAgrees(max: nat): seq<Event> -> bool {
    (es: seq<Event>) => Agrees(SimpleRun(es, max), RepairedRun(es, max))
  }

  ghost function RepairedReleasesConfirmed(max: nat): (seq<Event>, Event) -> bool {
    (es: seq<Event>, e: Event) => ReleasesConfirmed(RepairedRun(es, max), e)
  }

  /** With the parameter list repaired, over every run with fresh bet ids: the SQL ledger
      has the slots and counters of the simple one all along if and only if no confirmed
      slot is released; and then every attempt is confirmed, reserved or failed. */
  lemma RepairedAgreesIff(es: seq<Event>, max: nat)
    requires FreshBets(es)
    ensures Throughout(es, RepairedAgrees(max)) <==> Nowhere(es, RepairedReleasesConfirmed(max))
    ensures Throughout(es, RepairedAgrees(max)) ==> AttemptsExact(RepairedRun(es, max))
  {
    forall k | 0 <= k < |es| && RepairedAgrees(max)(es[..k])
      ensures RepairedAgrees(max)(es[..k] + [es[k]]) <==> !RepairedReleasesConfirmed(max)(es[..k], es[k])
    {
      var b, r := SimpleRun(es[..k], max), RepairedRun(es[..k], max);
      FreshPrefix(es, k);
      FreshMeansDistinct(es[..k], max);
      SimpleLedgerExact(es[..k], max);
      RunsSnoc(es[..k], es[k], max);
      if es[k].Release? { FreeEntryAgreesIff(b, r, es[k].bet, max); } else { SqlStepAgreesIff(b, r, es[k], max); }
    }
    IffNowhere(es, RepairedAgrees(max), RepairedReleasesConfirmed(max));
    if Throughout(es, RepairedAgrees(max)) {
      assert forall k :: 0 <= k < |es| ==> !RepairedReleasesConfirmed(max)(es[..k], es[k]);
      RepairedExactIff(es, max);
      assert es[..|es|] == es && RepairedExact(max)(es[..|es|]);
    }
  }

  // ----- the answers -----

  /** In every run of the simple ledger a reserve is granted exactly while fewer than the
      limit are confirmed or reserved, and the new slot has the next number. */
  lemma SimpleReserveIff(es: seq<Event>, max: nat, bet: BetId)
    ensures var b := SimpleRun(es, max);
            var active := CountIn(b.slots, Confirmed) + CountIn(b.slots, Reserved);
            if active < max
            then SimpleStep(b, Reserve(bet), max).1
                 && SimpleStep(b, Reserve(bet), max).0.slots == b.slots + [Slot(bet, active + 1, Reserved)]
            else SimpleStep(b, Reserve(bet), max) == (b, false)
  {
    SimpleLedgerExact(es, max);
  }

  ghost predicate IsFirstReserved(slots: seq<Slot>, bet: BetId, i: int) {
    && 0 <= i < |slots| && slots[i].bet == bet && slots[i].status == Reserved
    && forall j :: 0 <= j < i ==> slots[j].bet != bet || slots[j].status != Reserved
  }

  /** A confirm or release of the simple ledger does nothing exactly if the bet has no
      reserved slot; otherwise it moves the first of them, and no other slot. */
  lemma SimpleMoveIff(b: Bucket, e: Event, max: nat, to: Status)
    requires (e.Confirm? && to == Confirmed) || (e.Release? && to == Released)
    ensures SimpleStep(b, e, max).1 <==> exists i :: IsFirstReserved(b.slots, e.bet, i)
    ensures !SimpleStep(b, e, max).1 ==> SimpleStep(b, e, max).0 == b
    ensures forall i :: IsFirstReserved(b.slots, e.bet, i) ==>
              SimpleStep(b, e, max).0.slots == b.slots[i := b.slots[i].(status := to)]
  {
    FindsFirst(b.slots, e.bet);
  }

  lemma FindsFirst(slots: seq<Slot>, bet: BetId)
    ensures FindReserved(slots, bet) < |slots| ==> IsFirstReserved(slots, bet, FindReserved(slots, bet))
    ensures forall i :: IsFirstReserved(slots, bet, i) ==> i == FindReserved(slots, bet)
  {
  }

  lemma {:induction false} SqlEntriesAreLive(es: seq<Event>, max: nat)
    ensures forall i :: 0 <= i < |SqlRun(es, max).entries| ==>
              SqlRun(es, max).entries[i].status == Reserved || SqlRun(es, max).entries[i].status == Confirmed
  {
    if es != [] { SqlEntriesAreLive(es[..|es| - 1], max); }
  }

  /** In every run of the SQL ledger: a reserve is done exactly while there are fewer entries
      than the limit; a confirm is done exactly if the bet has an entry, and never a
      conflict; repeated, it is done again and changes nothing; a release is rejected
      exactly if the bet has an entry. */
  lemma SqlAnswersIff(es: seq<Event>, max: nat, bet: BetId)
    ensures var r := SqlRun(es, max);
            var has := exists i :: 0 <= i < |r.entries| && r.entries[i].bet == bet;
            var (t, o) := SqlStep(r, Confirm(bet), max);
            && SqlStep(r, Reserve(bet), max).1 == (if |r.entries| < max then Done else Full)
            && o == (if has then Done else NotFound) && SqlStep(t, Confirm(bet), max) == (t, o)
            && SqlStep(r, Release(bet), max) == (r, if has then Rejected else Done)
  {
    SqlNeverFrees(es, max);
    SqlEntriesAreLive(es, max);
    var r := SqlRun(es, max);
    var i := FindEntry(r.entries, bet);
    if i < |r.entries| {
      var t := SqlConfirm(r, bet).0;
      assert t.entries[i].bet == bet && forall j :: 0 <= j < i ==> t.entries[j].bet != bet;
      assert FindEntry(t.entries, bet) == i;
    }
  }
}
