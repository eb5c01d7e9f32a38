/** `MiniGameService`: the round state machine of the house game together with the bet
    and balance tables.

    Timer callbacks run without interruption. `placeBet`, `cashout`, `activateRound` and
    `settleLosses` are split at their awaits; an operation between two awaits is an `Op`.
    A transaction takes effect when it commits; the row lock a cash-out takes with
    SELECT ... FOR UPDATE blocks every other write to that row until then. Amounts and
    multipliers are exact reals. */
module MiniGame {
  import opened Options
  import opened Sums

  type User = string

  datatype Phase = Idle | Countdown | Running | Crashed

  /** `during` is the round in progress when the cash-out read its multiplier. */
  datatype BetState = Placed | Active | CashedOut(multiplier: real, during: nat) | Lost

  datatype Bet = Bet(user: User, round: nat, amount: real, key: string, promo: bool, state: BetState, locked: bool)

  datatype Op =
    | Placing(user: User, amount: real, key: string)
    | Inserting(user: User, amount: real, key: string, round: nat)
    | Cashing(user: User, bet: nat)
    | CashingLocked(user: User, bet: nat, multiplier: real, during: nat)
    | Activating(issued: Option<nat>)
    | Settling(issued: Option<nat>)
    | Finished

  /** `rounds` holds the crash point of every round begun; the last one is current. */
  datatype State = State(
    phase: Phase, rounds: seq<real>, multiplier: Option<real>, countdown: nat,
    bets: seq<Bet>, balances: map<User, real>, ops: seq<Op>)

  /** The amount limits of `placeBet`. */
  datatype Limits = Limits(minBet: real, maxBet: real)

  datatype Event =
    | BeginRound(crashPoint: real)
    | Pause
    | Tick(raw: real)
    | PlaceBet(user: User, amount: real, key: string)
    | ReadRound(op: nat)
    | CommitBet(op: nat, promoLeft: bool)
    | Cashout(user: User, bet: nat)
    | LockBet(op: nat)
    | CommitCashout(op: nat)
    | IssueUpdate(op: nat)
    | CommitUpdate(op: nat)
    | Abort(op: nat)

  const COUNTDOWN_TICKS := 50

  function Initial(balances: map<User, real>): State {
    State(Idle, [], None, 0, [], balances, [])
  }

  function CurrentRound(s: State): nat
    requires s.rounds != []
  {
    |s.rounds| - 1
  }

  function Balance(balances: map<User, real>, u: User): real {
    if u in balances then balances[u] else 0.0
  }

  predicate Open(b: Bet) { b.state.Placed? || b.state.Active? }

  function Multiplier(s: State): real {
    if s.multiplier.Some? then s.multiplier.value else 1.0
  }

  function Finish(s: State, o: nat): State
    requires o < |s.ops|
  {
    s.(ops := s.ops[o := Finished])
  }

  function TickStep(s: State, raw: real): State {
    match s.phase
    case Countdown =>
      if s.countdown <= 1
      then s.(phase := Running, countdown := 0, ops := s.ops + [Activating(None)])
      else s.(countdown := s.countdown - 1)
    case Running =>
      var m := if raw > 1.0 then raw else 1.0;
      if s.rounds != [] && m >= s.rounds[CurrentRound(s)]
      then s.(phase := Crashed, multiplier := Some(s.rounds[CurrentRound(s)]), ops := s.ops + [Settling(None)])
      else s.(multiplier := Some(m))
    case _ => s
  }

  predicate KeyUsed(bets: seq<Bet>, key: string) {
    exists i :: 0 <= i < |bets| && bets[i].key == key
  }

  function CommitBetStep(s: State, o: nat, promoLeft: bool): State
    requires o < |s.ops| && s.ops[o].Inserting?
  {
    var p := s.ops[o];
    var current := Balance(s.balances, p.user);
    if KeyUsed(s.bets, p.key) then Finish(s, o)
    else if current >= p.amount then
      Finish(s, o).(
        bets := s.bets + [Bet(p.user, p.round, p.amount, p.key, false, Placed, false)],
        balances := s.balances[p.user := current - p.amount])
    else if promoLeft then
      Finish(s, o).(
        bets := s.bets + [Bet(p.user, p.round, p.amount, p.key, true, Placed, false)],
        balances := s.balances[p.user := current])
    else Finish(s, o)
  }

  function LockBetStep(s: State, o: nat): State
    requires o < |s.ops| && s.ops[o].Cashing? && s.rounds != []
  {
    var p := s.ops[o];
    if p.bet < |s.bets| && s.bets[p.bet].user == p.user && s.bets[p.bet].locked then s
    else if p.bet < |s.bets| && s.bets[p.bet].user == p.user && Open(s.bets[p.bet]) then
      s.(bets := s.bets[p.bet := s.bets[p.bet].(locked := true)],
         ops := s.ops[o := CashingLocked(p.user, p.bet, Multiplier(s), CurrentRound(s))])
    else Finish(s, o)
  }

  /** What the code credits: the amount plus the profit. */
  function Payout(amount: real, m: real): real {
    amount + amount * (m - 1.0)
  }

  function CommitCashoutStep(s: State, o: nat): State
    requires o < |s.ops| && s.ops[o].CashingLocked? && s.ops[o].bet < |s.bets|
  {
    var p := s.ops[o];
    var b := s.bets[p.bet];
    Finish(s, o).(
      bets := s.bets[p.bet := b.(state := CashedOut(p.multiplier, p.during), locked := false)],
      balances := s.balances[p.user := Balance(s.balances, p.user) + Payout(b.amount, p.multiplier)])
  }

  /** The rows an UPDATE of `activateRound` or `settleLosses` matches. */
  predicate Matches(b: Bet, round: nat, settle: bool) {
    b.round == round && (b.state.Placed? || (settle && b.state.Active?))
  }

  function UpdateRow(b: Bet, round: nat, settle: bool): Bet {
    if Matches(b, round, settle) then b.(state := if settle then Lost else Active) else b
  }

  function UpdateRows(bets: seq<Bet>, round: nat, settle: bool): (r: seq<Bet>)
    ensures |r| == |bets| && forall i :: 0 <= i < |bets| ==> r[i] == UpdateRow(bets[i], round, settle)
  {
    seq(|bets|, i requires 0 <= i < |bets| => UpdateRow(bets[i], round, settle))
  }

  /** The UPDATE waits while another transaction holds one of its rows. */
  predicate MustWait(bets: seq<Bet>, round: nat, settle: bool) {
    exists i :: 0 <= i < |bets| && Matches(bets[i], round, settle) && bets[i].locked
  }

  function Step(s: State, e: Event, lim: Limits): State {
    match e
    case BeginRound(c) =>
      if c < 1.0 then s
      else s.(phase := Countdown, rounds := s.rounds + [c], multiplier := Some(1.0), countdown := COUNTDOWN_TICKS)
    case Pause => s.(phase := Idle)
    case Tick(raw) => TickStep(s, raw)
    case PlaceBet(u, a, k) =>
      if s.phase == Countdown && s.rounds != [] && lim.minBet <= a <= lim.maxBet
      then s.(ops := s.ops + [Placing(u, a, k)]) else s
    case ReadRound(o) =>
      if o < |s.ops| && s.ops[o].Placing? && s.rounds != [] then
        var p := s.ops[o];
        s.(ops := s.ops[o := Inserting(p.user, p.amount, p.key, CurrentRound(s))])
      else s
    case CommitBet(o, promo) =>
      if o < |s.ops| && s.ops[o].Inserting? then CommitBetStep(s, o, promo) else s
    case Cashout(u, b) =>
      if s.phase == Running && s.rounds != [] then s.(ops := s.ops + [Cashing(u, b)]) else s
    case LockBet(o) =>
      if o < |s.ops| && s.ops[o].Cashing? && s.rounds != [] then LockBetStep(s, o) else s
    case CommitCashout(o) =>
      if o < |s.ops| && s.ops[o].CashingLocked? && s.ops[o].bet < |s.bets| then CommitCashoutStep(s, o) else s
    case IssueUpdate(o) =>
      if o < |s.ops| && s.rounds != [] && s.ops[o] == Activating(None)
      then s.(ops := s.ops[o := Activating(Some(CurrentRound(s)))])
      else if o < |s.ops| && s.rounds != [] && s.ops[o] == Settling(None)
      then s.(ops := s.ops[o := Settling(Some(CurrentRound(s)))])
      else s
    case CommitUpdate(o) =>
      if o < |s.ops| && (s.ops[o].Activating? || s.ops[o].Settling?) && s.ops[o].issued.Some? then
        var round, settle := s.ops[o].issued.value, s.ops[o].Settling?;
        if MustWait(s.bets, round, settle) then s
        else Finish(s, o).(bets := UpdateRows(s.bets, round, settle))
      else s
    case Abort(o) =>
      if o >= |s.ops| then s
      else if s.ops[o].CashingLocked? && s.ops[o].bet < |s.bets| then
        Finish(s, o).(bets := s.bets[s.ops[o].bet := s.bets[s.ops[o].bet].(locked := false)])
      else Finish(s, o)
  }

  function Run(start: map<User, real>, es: seq<Event>, lim: Limits): State {
    if es == [] then Initial(start) else Step(Run(start, es[..|es| - 1], lim), es[|es| - 1], lim)
  }

  // ----- the service object -----

  /** The service's fields (`rounds` stands for roundId and crashAt), its two tables and
      the operations in flight. */
  class MiniGameService {
    const limits: Limits
    var phase: Phase
    var rounds: seq<real>
    var multiplier: Option<real>
    var countdown: nat
    var bets: seq<Bet>
    var balances: map<User, real>
    var ops: seq<Op>

    ghost function Abstract(): State reads this {
      State(phase, rounds, multiplier, countdown, bets, balances, ops)
    }

    constructor (limits: Limits, balances: map<User, real>)
      ensures Abstract() == Initial(balances) && this.limits == limits
    {
      this.limits, this.balances := limits, balances;
      phase, rounds, multiplier, countdown, bets, ops := Idle, [], None, 0, [], [];
    }

    /** `beginRound`, given the value of `crashPoint`, which is never below 1. */
    method OpenRound(crashPoint: real)
      requires crashPoint >= 1.0
      modifies this
      ensures Abstract() == Step(old(Abstract()), BeginRound(crashPoint), limits)
    {
      rounds := rounds + [crashPoint];
      multiplier := Some(1.0);
      countdown := COUNTDOWN_TICKS;
      phase := Countdown;
    }

    /** `endRound` up to its first await. */
    method EndRound()
      requires rounds != []
      modifies this`phase, this`multiplier, this`ops
      ensures phase == Crashed && multiplier == Some(rounds[|rounds| - 1]) && ops == old(ops) + [Settling(None)]
    {
      phase := Crashed;
      multiplier := Some(rounds[|rounds| - 1]);
      ops := ops + [Settling(None)];
    }

    /** The timer callback; `raw` is the rounded exponential of the elapsed time. Between
        the assignment of `multiplier` and the crash test nothing else runs. */
    method OnTick(raw: real)
      modifies this
      ensures Abstract() == Step(old(Abstract()), Tick(raw), limits)
    {
      if phase == Countdown {
        countdown := if countdown > 1 then countdown - 1 else 0;
        if countdown == 0 {
          phase := Running;
          ops := ops + [Activating(None)];
        }
        return;
      }
      if phase != Running { return; }
      var m := if raw > 1.0 then raw else 1.0;
      multiplier := Some(m);
      if rounds != [] && m >= rounds[|rounds| - 1] { EndRound(); }
    }

    /** `placeBet` up to its first await. */
    method StartPlaceBet(user: User, amount: real, key: string) returns (accepted: bool)
      modifies this
      ensures Abstract() == Step(old(Abstract()), PlaceBet(user, amount, key), limits)
      ensures accepted <==> ops != old(ops)
    {
      if phase != Countdown || rounds == [] { return false; }
      if amount < limits.minBet { return false; }
      if amount > limits.maxBet { return false; }
      ops := ops + [Placing(user, amount, key)];
      return true;
    }

    /** The segment of `placeBet` that reads the round for its INSERT. */
    method BindRound(o: nat)
      requires o < |ops| && ops[o].Placing? && rounds != []
      modifies this`ops
      ensures Abstract() == Step(old(Abstract()), ReadRound(o), limits)
    {
      ops := ops[o := Inserting(ops[o].user, ops[o].amount, ops[o].key, |rounds| - 1)];
    }

    /** The transaction of `placeBet`, as its commit leaves the tables. */
    method FinishPlaceBet(o: nat, promoLeft: bool)
      requires o < |ops| && ops[o].Inserting?
      modifies this
      ensures Abstract() == Step(old(Abstract()), CommitBet(o, promoLeft), limits)
    {
      var p := ops[o];
      ops := ops[o := Finished];
      if KeyUsed(bets, p.key) { return; }
      var current := Balance(balances, p.user);
      var usedPromo := false;
      if current < p.amount {
        if !promoLeft { return; }
        usedPromo := true;
      }
      balances := balances[p.user := current];
      if !usedPromo { balances := balances[p.user := balances[p.user] - p.amount]; }
      bets := bets + [Bet(p.user, p.round, p.amount, p.key, usedPromo, Placed, false)];
    }

    /** `cashout` up to its first await. */
    method StartCashout(user: User, bet: nat) returns (accepted: bool)
      modifies this
      ensures Abstract() == Step(old(Abstract()), Cashout(user, bet), limits)
      ensures accepted <==> ops != old(ops)
    {
      if phase != Running || rounds == [] { return false; }
      ops := ops + [Cashing(user, bet)];
      return true;
    }

    /** SELECT ... FOR UPDATE of `cashout` and the read of the multiplier after it. */
    method LockRow(o: nat)
      requires o < |ops| && ops[o].Cashing? && rounds != []
      modifies this
      ensures Abstract() == Step(old(Abstract()), LockBet(o), limits)
    {
      var p := ops[o];
      if p.bet >= |bets| || bets[p.bet].user != p.user {
        ops := ops[o := Finished];
        return;
      }
      if bets[p.bet].locked { return; }
      if !Open(bets[p.bet]) {
        ops := ops[o := Finished];
        return;
      }
      var m := if multiplier.Some? then multiplier.value else 1.0;
      bets := bets[p.bet := bets[p.bet].(locked := true)];
      ops := ops[o := CashingLocked(p.user, p.bet, m, |rounds| - 1)];
    }

    /** The commit of `cashout`. */
    method FinishCashout(o: nat) returns (pnl: real)
      requires o < |ops| && ops[o].CashingLocked? && ops[o].bet < |bets|
      modifies this
      ensures Abstract() == Step(old(Abstract()), CommitCashout(o), limits)
      ensures pnl == Payout(old(bets[ops[o].bet].amount), old(ops[o].multiplier)) - old(bets[ops[o].bet].amount)
    {
      var p := ops[o];
      var b := bets[p.bet];
      pnl := b.amount * (p.multiplier - 1.0);
      var payout := b.amount + pnl;
      assert payout == Payout(b.amount, p.multiplier);
      bets := bets[p.bet := b.(state := CashedOut(p.multiplier, p.during), locked := false)];
      balances := balances[p.user := Balance(balances, p.user) + payout];
      ops := ops[o := Finished];
    }

    /** `activateRound` and `settleLosses` pass the current round to their UPDATE. */
    method SendUpdate(o: nat)
      requires o < |ops| && rounds != [] && (ops[o] == Activating(None) || ops[o] == Settling(None))
      modifies this`ops
      ensures Abstract() == Step(old(Abstract()), IssueUpdate(o), limits)
    {
      var round := Some(|rounds| - 1);
      ops := ops[o := if ops[o].Settling? then Settling(round) else Activating(round)];
    }

    /** That UPDATE, once no other transaction holds one of its rows. */
    method ApplyUpdate(o: nat)
      requires o < |ops| && (ops[o].Activating? || ops[o].Settling?) && ops[o].issued.Some?
      requires !MustWait(bets, ops[o].issued.value, ops[o].Settling?)
      modifies this`bets, this`ops
      ensures Abstract() == Step(old(Abstract()), CommitUpdate(o), limits)
    {
      var round, settle := ops[o].issued.value, ops[o].Settling?;
      bets := UpdateRows(bets, round, settle);
      ops := ops[o := Finished];
    }

    /** An operation throws; its transaction is rolled back and its row lock goes. */
    method Rollback(o: nat)
      requires o < |ops|
      modifies this`bets, this`ops
      ensures Abstract() == Step(old(Abstract()), Abort(o), limits)
    {
      if ops[o].CashingLocked? && ops[o].bet < |bets| {
        bets := bets[ops[o].bet := bets[ops[o].bet].(locked := false)];
      }
      ops := ops[o := Finished];
    }
  }

  // ----- what a bet does to its owner's balance -----

  /** Debit of a real stake, then stake times multiplier once cashed out. */
  function Net(b: Bet): real {
    (if b.promo then 0.0 else -b.amount) + (if b.state.CashedOut? then b.amount * b.state.multiplier else 0.0)
  }

  function NetFor(u: User): Bet -> real {
    (b: Bet) => if b.user == u then Net(b) else 0.0
  }

  // ----- the invariant -----

  /** The game clock: every crash point is at least 1 and the multiplier never exceeds
      the current one. */
  ghost predicate ClockInv(s: State) {
    && (forall r :: 0 <= r < |s.rounds| ==> s.rounds[r] >= 1.0)
    && (s.rounds == [] <==> s.multiplier.None?)
    && (s.phase != Idle ==> s.rounds != [])
    && (s.rounds != [] ==> 1.0 <= s.multiplier.value <= s.rounds[CurrentRound(s)])
  }

  ghost predicate InRange(s: State, m: real, during: nat) {
    during < |s.rounds| && 1.0 <= m <= s.rounds[during]
  }

  ghost predicate BetsInv(s: State) {
    forall b :: 0 <= b < |s.bets| ==>
      && s.bets[b].amount >= 0.0
      && (s.bets[b].locked ==> Open(s.bets[b]))
      && (s.bets[b].state.CashedOut? ==> InRange(s, s.bets[b].state.multiplier, s.bets[b].state.during))
  }

  ghost predicate OpOk(s: State, p: Op) {
    match p
    case Placing(_, a, _) => a >= 0.0
    case Inserting(_, a, _, _) => a >= 0.0
    case CashingLocked(u, b, m, d) =>
      b < |s.bets| && s.bets[b].user == u && s.bets[b].locked && Open(s.bets[b]) && InRange(s, m, d)
    case _ => true
  }

  ghost predicate OpsInv(s: State) {
    && (forall o :: 0 <= o < |s.ops| ==> OpOk(s, s.ops[o]))
    && (forall o, p :: 0 <= o < p < |s.ops| && s.ops[o].CashingLocked? && s.ops[p].CashingLocked? ==>
          s.ops[o].bet != s.ops[p].bet)
  }

  ghost predicate MoneyInv(start: map<User, real>, s: State) {
    && (forall u :: Balance(s.balances, u) == Balance(start, u) + SumReal(NetFor(u), s.bets))
    && (forall u :: Balance(s.balances, u) >= 0.0)
  }

  ghost predicate Inv(start: map<User, real>, s: State) {
    ClockInv(s) && BetsInv(s) && OpsInv(s) && MoneyInv(start, s)
  }

  // ----- each step keeps the invariant -----

  lemma PayoutIsStakeTimesMultiplier(a: real, m: real)
    requires a >= 0.0 && m >= 1.0
    ensures Payout(a, m) == a * m && a * m >= 0.0
  {
  }

  /** A step after which the operations that remain are the old ones or harmless, and
      the rows they hold are as before. */
  lemma OpsCarryOver(s: State, t: State)
    requires OpsInv(s) && s.rounds <= t.rounds && |s.ops| <= |t.ops|
    requires forall k :: 0 <= k < |t.ops| ==>
               (k < |s.ops| && t.ops[k] == s.ops[k]) || (!t.ops[k].CashingLocked? && OpOk(t, t.ops[k]))
    requires forall k :: 0 <= k < |t.ops| && t.ops[k].CashingLocked? ==>
               t.ops[k].bet < |t.bets| && t.bets[t.ops[k].bet] == s.bets[t.ops[k].bet]
    ensures OpsInv(t)
  {
    forall k | 0 <= k < |t.ops| ensures OpOk(t, t.ops[k]) {
      if k < |s.ops| && t.ops[k] == s.ops[k] { assert OpOk(s, s.ops[k]); }
    }
  }

  lemma NewBetKeepsMoney(start: map<User, real>, s: State, t: State, b: Bet)
    requires MoneyInv(start, s) && t.bets == s.bets + [b] && !b.state.CashedOut?
    requires t.balances == s.balances[b.user := Balance(s.balances, b.user) + Net(b)]
    requires Balance(s.balances, b.user) + Net(b) >= 0.0
    ensures MoneyInv(start, t)
  {
    forall u
      ensures Balance(t.balances, u) == Balance(start, u) + SumReal(NetFor(u), t.bets) && Balance(t.balances, u) >= 0.0
    {
      SumRealSnoc(NetFor(u), s.bets, b);
      assert Balance(s.balances, u) >= 0.0;
    }
  }

  /** A step that leaves both tables alone. */
  lemma TablesCarryOver(start: map<User, real>, s: State, t: State)
    requires BetsInv(s) && MoneyInv(start, s)
    requires t.bets == s.bets && t.balances == s.balances && s.rounds <= t.rounds
    ensures BetsInv(t) && MoneyInv(start, t)
  {
  }

  lemma CommitBetKeepsOps(s: State, o: nat, promo: bool)
    requires OpsInv(s) && o < |s.ops| && s.ops[o].Inserting?
    ensures OpsInv(CommitBetStep(s, o, promo))
  {
    var t := CommitBetStep(s, o, promo);
    assert t.ops == s.ops[o := Finished] && s.bets <= t.bets && t.rounds == s.rounds;
    forall k | 0 <= k < |t.ops| && t.ops[k].CashingLocked? ensures t.ops[k].bet < |s.bets| { assert OpOk(s, s.ops[k]); }
    OpsCarryOver(s, t);
  }

  lemma NewBetKeepsBets(s: State, t: State, b: Bet)
    requires BetsInv(s) && t.bets == s.bets + [b] && t.rounds == s.rounds
    requires b.amount >= 0.0 && b.state.Placed? && !b.locked
    ensures BetsInv(t)
  {
  }

  lemma CommitBetKeepsTables(start: map<User, real>, s: State, o: nat, promo: bool)
    requires BetsInv(s) && MoneyInv(start, s) && o < |s.ops| && s.ops[o].Inserting? && s.ops[o].amount >= 0.0
    ensures BetsInv(CommitBetStep(s, o, promo)) && MoneyInv(start, CommitBetStep(s, o, promo))
  {
    var p, t := s.ops[o], CommitBetStep(s, o, promo);
    if t.bets == s.bets {
      TablesCarryOver(start, s, t);
    } else {
      var b := t.bets[|s.bets|];
      assert Balance(s.balances, p.user) >= 0.0;
      NewBetKeepsBets(s, t, b);
      NewBetKeepsMoney(start, s, t, b);
    }
  }

  lemma CommitBetKeepsInv(start: map<User, real>, s: State, o: nat, promo: bool)
    requires Inv(start, s) && o < |s.ops| && s.ops[o].Inserting?
    ensures Inv(start, CommitBetStep(s, o, promo))
  {
    assert OpOk(s, s.ops[o]);
    CommitBetKeepsOps(s, o, promo);
    CommitBetKeepsTables(start, s, o, promo);
  }

  /** Locking or unlocking one row. */
  lemma LockChangeKeepsTables(start: map<User, real>, s: State, t: State, k: nat, locked: bool)
    requires BetsInv(s) && MoneyInv(start, s) && k < |s.bets| && Open(s.bets[k])
    requires t.bets == s.bets[k := s.bets[k].(locked := locked)] && t.balances == s.balances && t.rounds == s.rounds
    ensures BetsInv(t) && MoneyInv(start, t)
  {
    QuietKeepsMoney(start, s, t);
  }

  lemma LockBetKeepsInv(start: map<User, real>, s: State, o: nat)
    requires Inv(start, s) && o < |s.ops| && s.ops[o].Cashing? && s.rounds != []
    ensures Inv(start, LockBetStep(s, o))
  {
    var p, t := s.ops[o], LockBetStep(s, o);
    forall k | 0 <= k < |t.ops| ensures OpOk(t, t.ops[k]) { assert OpOk(s, s.ops[k]); }
    if t.bets != s.bets {
      LockChangeKeepsTables(start, s, t, p.bet, true);
    } else {
      TablesCarryOver(start, s, t);
    }
  }

  lemma PaidBetKeepsMoney(start: map<User, real>, s: State, t: State, k: nat, b: Bet)
    requires MoneyInv(start, s) && k < |s.bets| && b.user == s.bets[k].user && t.bets == s.bets[k := b]
    requires Net(b) >= Net(s.bets[k])
    requires t.balances == s.balances[b.user := Balance(s.balances, b.user) + (Net(b) - Net(s.bets[k]))]
    ensures MoneyInv(start, t)
  {
    forall u
      ensures Balance(t.balances, u) == Balance(start, u) + SumReal(NetFor(u), t.bets) && Balance(t.balances, u) >= 0.0
    {
      SumRealUpdate(NetFor(u), s.bets, k, b);
      assert Balance(s.balances, u) >= 0.0;
    }
  }

  lemma CommitCashoutKeepsInv(start: map<User, real>, s: State, o: nat)
    requires Inv(start, s) && o < |s.ops| && s.ops[o].CashingLocked? && s.ops[o].bet < |s.bets|
    ensures Inv(start, CommitCashoutStep(s, o))
  {
    var p, t := s.ops[o], CommitCashoutStep(s, o);
    assert OpOk(s, p);
    PayoutIsStakeTimesMultiplier(s.bets[p.bet].amount, p.multiplier);
    assert Net(t.bets[p.bet]) - Net(s.bets[p.bet]) == Payout(s.bets[p.bet].amount, p.multiplier);
    PaidBetKeepsMoney(start, s, t, p.bet, t.bets[p.bet]);
    forall k | 0 <= k < |t.ops| && t.ops[k].CashingLocked?
      ensures t.ops[k].bet < |t.bets| && t.bets[t.ops[k].bet] == s.bets[t.ops[k].bet]
    {
      assert OpOk(s, s.ops[k]) && k != o;
    }
    OpsCarryOver(s, t);
  }

  /** Rows that change without money moving. */
  lemma {:induction false} SameNetSameSum(f: Bet -> real, a: seq<Bet>, b: seq<Bet>)
    requires |a| == |b| && forall i :: 0 <= i < |a| ==> f(a[i]) == f(b[i])
    ensures SumReal(f, a) == SumReal(f, b)
  {
    if a != [] { SameNetSameSum(f, a[..|a| - 1], b[..|b| - 1]); }
  }

  lemma QuietKeepsMoney(start: map<User, real>, s: State, t: State)
    requires MoneyInv(start, s) && t.balances == s.balances && |t.bets| == |s.bets|
    requires forall i :: 0 <= i < |s.bets| ==> t.bets[i].user == s.bets[i].user && Net(t.bets[i]) == Net(s.bets[i])
    ensures MoneyInv(start, t)
  {
    forall u ensures Balance(t.balances, u) == Balance(start, u) + SumReal(NetFor(u), t.bets) {
      SameNetSameSum(NetFor(u), s.bets, t.bets);
    }
  }

  lemma UpdateKeepsInv(start: map<User, real>, s: State, o: nat, round: nat, settle: bool)
    requires Inv(start, s) && o < |s.ops| && !MustWait(s.bets, round, settle)
    ensures Inv(start, Finish(s, o).(bets := UpdateRows(s.bets, round, settle)))
  {
    var t := Finish(s, o).(bets := UpdateRows(s.bets, round, settle));
    QuietKeepsMoney(start, s, t);
    forall k | 0 <= k < |t.ops| ensures OpOk(t, t.ops[k]) {
      assert OpOk(s, s.ops[k]);
      if t.ops[k].CashingLocked? { assert !Matches(s.bets[t.ops[k].bet], round, settle); }
    }
  }

  lemma AbortKeepsOps(s: State, lim: Limits, o: nat)
    requires OpsInv(s) && o < |s.ops|
    ensures OpsInv(Step(s, Abort(o), lim))
  {
    var t := Step(s, Abort(o), lim);
    forall k | 0 <= k < |t.ops| && t.ops[k].CashingLocked?
      ensures t.ops[k].bet < |t.bets| && t.bets[t.ops[k].bet] == s.bets[t.ops[k].bet]
    {
      assert OpOk(s, s.ops[k]) && k != o;
    }
    OpsCarryOver(s, t);
  }

  lemma AbortKeepsInv(start: map<User, real>, s: State, lim: Limits, o: nat)
    requires Inv(start, s) && o < |s.ops|
    ensures Inv(start, Step(s, Abort(o), lim))
  {
    var t := Step(s, Abort(o), lim);
    AbortKeepsOps(s, lim, o);
    assert OpOk(s, s.ops[o]);
    if s.ops[o].CashingLocked? {
      LockChangeKeepsTables(start, s, t, s.ops[o].bet, false);
    } else {
      TablesCarryOver(start, s, t);
    }
  }

  lemma ClockStepKeepsClock(s: State, e: Event, lim: Limits)
    requires ClockInv(s) && (e.BeginRound? || e.Pause? || e.Tick?)
    ensures ClockInv(Step(s, e, lim))
  {
  }

  lemma ClockStepKeepsInv(start: map<User, real>, s: State, e: Event, lim: Limits)
    requires Inv(start, s) && (e.BeginRound? || e.Pause? || e.Tick?)
    ensures Inv(start, Step(s, e, lim))
  {
    var t := Step(s, e, lim);
    ClockStepKeepsClock(s, e, lim);
    assert t.bets == s.bets && t.balances == s.balances;
    assert s.rounds <= t.rounds;
    TablesCarryOver(start, s, t);
    forall k | 0 <= k < |t.ops| && t.ops[k].CashingLocked? ensures t.ops[k].bet < |s.bets| { assert OpOk(s, s.ops[k]); }
    OpsCarryOver(s, t);
  }

  /** Adding an operation, or moving one along, as long as it holds no row. */
  lemma PlainOpKeepsInv(start: map<User, real>, s: State, t: State, o: nat, p: Op)
    requires Inv(start, s) && t == s.(ops := if o < |s.ops| then s.ops[o := p] else s.ops + [p])
    requires !p.CashingLocked? && OpOk(s, p)
    ensures Inv(start, t)
  {
    TablesCarryOver(start, s, t);
    forall k | 0 <= k < |s.ops| ensures OpOk(t, s.ops[k]) { assert OpOk(s, s.ops[k]); }
    OpsCarryOver(s, t);
  }

  /** Steps that only add an operation or move one along. */
  lemma OpStepKeepsInv(start: map<User, real>, s: State, e: Event, lim: Limits)
    requires Inv(start, s) && lim.minBet >= 0.0
    requires e.PlaceBet? || e.ReadRound? || e.Cashout? || e.IssueUpdate?
    ensures Inv(start, Step(s, e, lim))
  {
    var t := Step(s, e, lim);
    if t != s {
      var o := if e.PlaceBet? || e.Cashout? then |s.ops| else e.op;
      if o < |s.ops| { assert OpOk(s, s.ops[o]); }
      PlainOpKeepsInv(start, s, t, o, t.ops[o]);
    }
  }

  lemma StepKeepsInv(start: map<User, real>, s: State, e: Event, lim: Limits)
    requires Inv(start, s) && lim.minBet >= 0.0
    ensures Inv(start, Step(s, e, lim))
  {
    var t := Step(s, e, lim);
    if t != s {
      match e
      case CommitBet(o, promo) => CommitBetKeepsInv(start, s, o, promo);
      case LockBet(o) => LockBetKeepsInv(start, s, o);
      case CommitCashout(o) => CommitCashoutKeepsInv(start, s, o);
      case CommitUpdate(o) => UpdateKeepsInv(start, s, o, s.ops[o].issued.value, s.ops[o].Settling?);
      case Abort(o) => AbortKeepsInv(start, s, lim, o);
      case BeginRound(_) => ClockStepKeepsInv(start, s, e, lim);
      case Pause => ClockStepKeepsInv(start, s, e, lim);
      case Tick(_) => ClockStepKeepsInv(start, s, e, lim);
      case _ => OpStepKeepsInv(start, s, e, lim);
    }
  }

  ghost predicate GoodStart(start: map<User, real>) {
    forall u :: u in start ==> start[u] >= 0.0
  }

  lemma {:induction false} RunKeepsInv(start: map<User, real>, es: seq<Event>, lim: Limits)
    requires GoodStart(start) && lim.minBet >= 0.0
    ensures Inv(start, Run(start, es, lim))
  {
    if es != [] {
      RunKeepsInv(start, es[..|es| - 1], lim);
      StepKeepsInv(start, Run(start, es[..|es| - 1], lim), es[|es| - 1], lim);
    }
  }

  // ----- theorems over every run -----

  /** No balance goes negative, and each balance is its start minus the real stakes
      plus stake times multiplier of the cashed-out bets of that user. */
  lemma BalancesAccounted(start: map<User, real>, es: seq<Event>, lim: Limits, u: User)
    requires GoodStart(start) && lim.minBet >= 0.0
    ensures var s := Run(start, es, lim);
            Balance(s.balances, u) >= 0.0
            && Balance(s.balances, u) == Balance(start, u) + SumReal(NetFor(u), s.bets)
  {
    RunKeepsInv(start, es, lim);
  }

  /** At every yield point the multiplier is between 1 and the current crash point. */
  lemma MultiplierNeverPassesCrash(start: map<User, real>, es: seq<Event>, lim: Limits)
    requires GoodStart(start) && lim.minBet >= 0.0 && Run(start, es, lim).rounds != []
    ensures var s := Run(start, es, lim); 1.0 <= Multiplier(s) <= s.rounds[CurrentRound(s)]
  {
    RunKeepsInv(start, es, lim);
  }

  /** Every payment was at a multiplier between 1 and the crash point of the round in
      progress when it was read. */
  lemma PaidWithinCrash(start: map<User, real>, es: seq<Event>, lim: Limits, b: nat)
    requires GoodStart(start) && lim.minBet >= 0.0
    requires b < |Run(start, es, lim).bets| && Run(start, es, lim).bets[b].state.CashedOut?
    ensures var s := Run(start, es, lim);
            s.bets[b].state.during < |s.rounds|
            && 1.0 <= s.bets[b].state.multiplier <= s.rounds[s.bets[b].state.during]
  {
    RunKeepsInv(start, es, lim);
  }

  /** A cash-out that commits or aborts holds an open bet. */
  lemma HeldIsOpen(s: State, o: nat)
    requires OpsInv(s) && o < |s.ops| && s.ops[o].CashingLocked?
    ensures s.ops[o].bet < |s.bets| && Open(s.bets[s.ops[o].bet])
  {
    assert OpOk(s, s.ops[o]);
  }

  lemma SettledStays(start: map<User, real>, s: State, e: Event, lim: Limits, b: nat)
    requires Inv(start, s) && b < |s.bets| && !Open(s.bets[b])
    ensures b < |Step(s, e, lim).bets| && Step(s, e, lim).bets[b] == s.bets[b]
  {
    if (e.CommitCashout? || e.Abort?) && e.op < |s.ops| && s.ops[e.op].CashingLocked? { HeldIsOpen(s, e.op); }
  }

  /** A bet is settled at most once: from the moment it is cashed out or lost, its row
      never changes again. */
  lemma {:induction false} SettledOnce(start: map<User, real>, es: seq<Event>, lim: Limits, n: nat, b: nat)
    requires GoodStart(start) && lim.minBet >= 0.0 && n <= |es|
    requires b < |Run(start, es[..n], lim).bets| && !Open(Run(start, es[..n], lim).bets[b])
    ensures b < |Run(start, es, lim).bets|
    ensures Run(start, es, lim).bets[b] == Run(start, es[..n], lim).bets[b]
  {
    if n == |es| {
      assert es[..n] == es;
    } else {
      var es' := es[..|es| - 1];
      assert es'[..n] == es[..n];
      SettledOnce(start, es', lim, n, b);
      RunKeepsInv(start, es', lim);
      SettledStays(start, Run(start, es', lim), es[|es| - 1], lim, b);
    }
  }

  /** When the settlement of a round commits, none of its bets is open any more, and no
      money has moved. */
  lemma SettlementClosesRound(start: map<User, real>, s: State, o: nat, lim: Limits)
    requires Inv(start, s) && o < |s.ops| && s.ops[o].Settling? && s.ops[o].issued.Some?
    requires !MustWait(s.bets, s.ops[o].issued.value, true)
    ensures var t := Step(s, CommitUpdate(o), lim);
            && t.balances == s.balances && |t.bets| == |s.bets|
            && forall b :: 0 <= b < |t.bets| ==>
                 if s.bets[b].round == s.ops[o].issued.value && Open(s.bets[b])
                 then t.bets[b] == s.bets[b].(state := Lost) else t.bets[b] == s.bets[b]
  {
  }

  // ----- rounds and limits -----

  predicate WithinLimits(a: real, lim: Limits) { lim.minBet <= a <= lim.maxBet }

  /** A bet is within the limits, in a round that has begun, and paid in no earlier one. */
  ghost predicate BetRecordOk(s: State, b: Bet, lim: Limits) {
    WithinLimits(b.amount, lim) && b.round < |s.rounds| && (b.state.CashedOut? ==> b.round <= b.state.during)
  }

  ghost predicate OpRecordOk(s: State, p: Op, lim: Limits) {
    match p
    case Placing(_, a, _) => WithinLimits(a, lim)
    case Inserting(_, a, _, r) => WithinLimits(a, lim) && r < |s.rounds|
    case CashingLocked(_, b, _, d) => b < |s.bets| && s.bets[b].round <= d
    case _ => true
  }

  ghost predicate RecordsInv(s: State, lim: Limits) {
    && (forall b :: 0 <= b < |s.bets| ==> BetRecordOk(s, s.bets[b], lim))
    && (forall o :: 0 <= o < |s.ops| ==> OpRecordOk(s, s.ops[o], lim))
  }

  lemma StepKeepsBetRecords(s: State, e: Event, lim: Limits)
    requires RecordsInv(s, lim)
    ensures forall b :: 0 <= b < |Step(s, e, lim).bets| ==> BetRecordOk(Step(s, e, lim), Step(s, e, lim).bets[b], lim)
  {
    var t := Step(s, e, lim);
    forall b | 0 <= b < |t.bets| ensures BetRecordOk(t, t.bets[b], lim) {
      if b < |s.bets| { assert BetRecordOk(s, s.bets[b], lim); }
      if e.CommitBet? && e.op < |s.ops| { assert OpRecordOk(s, s.ops[e.op], lim); }
      if e.CommitCashout? && e.op < |s.ops| { assert OpRecordOk(s, s.ops[e.op], lim); }
    }
  }

  lemma StepKeepsRows(s: State, e: Event, lim: Limits)
    ensures var t := Step(s, e, lim);
            && |s.bets| <= |t.bets| && |s.rounds| <= |t.rounds|
            && forall b :: 0 <= b < |s.bets| ==> t.bets[b].round == s.bets[b].round
  {
  }

  lemma OldOpRecordStays(s: State, t: State, p: Op, lim: Limits)
    requires OpRecordOk(s, p, lim) && |s.bets| <= |t.bets| && |s.rounds| <= |t.rounds|
    requires forall b :: 0 <= b < |s.bets| ==> t.bets[b].round == s.bets[b].round
    ensures OpRecordOk(t, p, lim)
  {
  }

  lemma NewOpRecordOk(s: State, e: Event, lim: Limits, o: nat)
    requires RecordsInv(s, lim) && o < |Step(s, e, lim).ops|
    requires o < |s.ops| ==> Step(s, e, lim).ops[o] != s.ops[o]
    ensures OpRecordOk(Step(s, e, lim), Step(s, e, lim).ops[o], lim)
  {
    if o < |s.ops| { assert OpRecordOk(s, s.ops[o], lim); }
    if e.LockBet? && s.ops[o].bet < |s.bets| { assert BetRecordOk(s, s.bets[s.ops[o].bet], lim); }
  }

  lemma StepKeepsOpRecords(s: State, e: Event, lim: Limits)
    requires RecordsInv(s, lim)
    ensures forall o :: 0 <= o < |Step(s, e, lim).ops| ==> OpRecordOk(Step(s, e, lim), Step(s, e, lim).ops[o], lim)
  {
    var t := Step(s, e, lim);
    StepKeepsRows(s, e, lim);
    forall o | 0 <= o < |t.ops| ensures OpRecordOk(t, t.ops[o], lim) {
      if o < |s.ops| && t.ops[o] == s.ops[o] {
        OldOpRecordStays(s, t, s.ops[o], lim);
      } else {
        NewOpRecordOk(s, e, lim, o);
      }
    }
  }

  /** In every run a bet's amount is within the limits, its round has begun, and it is paid
      in its own round or a later one. */
  lemma {:induction false} BetsWithinLimits(start: map<User, real>, es: seq<Event>, lim: Limits)
    ensures RecordsInv(Run(start, es, lim), lim)
  {
    if es != [] {
      var s := Run(start, es[..|es| - 1], lim);
      BetsWithinLimits(start, es[..|es| - 1], lim);
      StepKeepsBetRecords(s, es[|es| - 1], lim);
      StepKeepsOpRecords(s, es[|es| - 1], lim);
    }
  }

  // ----- idempotency -----

  ghost predicate KeysDiffer(bets: seq<Bet>) {
    forall i, j :: 0 <= i < j < |bets| ==> bets[i].key != bets[j].key
  }

  lemma BetsGrowByFreshKeys(s: State, e: Event, lim: Limits)
    ensures var t := Step(s, e, lim);
            && |s.bets| <= |t.bets| <= |s.bets| + 1
            && (forall i :: 0 <= i < |s.bets| ==> t.bets[i].key == s.bets[i].key)
            && (|t.bets| > |s.bets| ==> !KeyUsed(s.bets, t.bets[|s.bets|].key))
  {
  }

  /** However often `placeBet` is called with one idempotency key, interleaved or not, there
      is at most one bet with it; with BalancesAccounted, its stake is debited once. */
  lemma {:induction false} OneBetPerKey(start: map<User, real>, es: seq<Event>, lim: Limits)
    ensures KeysDiffer(Run(start, es, lim).bets)
  {
    if es != [] {
      OneBetPerKey(start, es[..|es| - 1], lim);
      BetsGrowByFreshKeys(Run(start, es[..|es| - 1], lim), es[|es| - 1], lim);
    }
  }

  // ----- totals over users -----

  function BalanceIn(balances: map<User, real>): User -> real {
    (u: User) => Balance(balances, u)
  }

  function NetAmong(us: seq<User>): Bet -> real {
    (b: Bet) => if b.user in us then Net(b) else 0.0
  }

  lemma {:induction false} AddUserToTotal(us: seq<User>, u: User, bets: seq<Bet>)
    requires u !in us
    ensures SumReal(NetAmong(us + [u]), bets) == SumReal(NetAmong(us), bets) + SumReal(NetFor(u), bets)
  {
    if bets != [] { AddUserToTotal(us, u, bets[..|bets| - 1]); }
  }

  lemma {:induction false} NoUsersNoTotal(bets: seq<Bet>)
    ensures SumReal(NetAmong([]), bets) == 0.0
  {
    if bets != [] { NoUsersNoTotal(bets[..|bets| - 1]); }
  }

  /** For any distinct users: their balances together are their starting balances, minus
      their real stakes, plus stake times multiplier of their cashed-out bets. */
  lemma {:induction false} TotalConserved(start: map<User, real>, es: seq<Event>, lim: Limits, us: seq<User>)
    requires GoodStart(start) && lim.minBet >= 0.0
    requires forall i, j :: 0 <= i < j < |us| ==> us[i] != us[j]
    ensures var s := Run(start, es, lim);
            SumReal(BalanceIn(s.balances), us) == SumReal(BalanceIn(start), us) + SumReal(NetAmong(us), s.bets)
  {
    var s := Run(start, es, lim);
    if us == [] {
      NoUsersNoTotal(s.bets);
    } else {
      var p, u := us[..|us| - 1], us[|us| - 1];
      assert us == p + [u];
      TotalConserved(start, es, lim, p);
      AddUserToTotal(p, u, s.bets);
      BalancesAccounted(start, es, lim, u);
    }
  }

  // ----- what a cash-out pays -----

  lemma RunSnoc(start: map<User, real>, es: seq<Event>, e: Event, lim: Limits)
    ensures Run(start, es + [e], lim) == Step(Run(start, es, lim), e, lim)
  {
    assert (es + [e])[..|es|] == es;
  }

  /** A cash-out whose steps no other operation interleaves. */
  function CashOutAlone(s: State, u: User, b: nat, lim: Limits): State {
    Step(Step(Step(s, Cashout(u, b), lim), LockBet(|s.ops|), lim), CommitCashout(|s.ops|), lim)
  }

  /** An uncontested cash-out of an open bet pays the multiplier of the moment, whichever
      round the bet belongs to, and touches nothing else. */
  lemma CashoutPaysCurrentMultiplier(start: map<User, real>, s: State, lim: Limits, b: nat)
    requires Inv(start, s) && s.phase == Running && b < |s.bets| && Open(s.bets[b]) && !s.bets[b].locked
    ensures var t := CashOutAlone(s, s.bets[b].user, b, lim);
            && t.bets == s.bets[b := s.bets[b].(state := CashedOut(Multiplier(s), CurrentRound(s)))]
            && t.balances == s.balances[s.bets[b].user :=
                 Balance(s.balances, s.bets[b].user) + Payout(s.bets[b].amount, Multiplier(s))]
            && Payout(s.bets[b].amount, Multiplier(s)) == s.bets[b].amount * Multiplier(s)
            && t.rounds == s.rounds && t.phase == s.phase && t.multiplier == s.multiplier
  {
    var u, o := s.bets[b].user, |s.ops|;
    var s1 := Step(s, Cashout(u, b), lim);
    assert s1 == s.(ops := s.ops + [Cashing(u, b)]);
    var s2 := Step(s1, LockBet(o), lim);
    assert s2 == LockBetStep(s1, o);
    assert s2.ops[o] == CashingLocked(u, b, Multiplier(s), CurrentRound(s));
    assert s2.bets[b] == s.bets[b].(locked := true);
    var s3 := CommitCashoutStep(s2, o);
    PayoutIsStakeTimesMultiplier(s.bets[b].amount, Multiplier(s));
    assert s3.bets == s.bets[b := s.bets[b].(state := CashedOut(Multiplier(s), CurrentRound(s)))];
    assert s2.bets[b].amount == s.bets[b].amount && s2.balances == s.balances;
    assert s3.balances == s.balances[u := Balance(s.balances, u) + Payout(s.bets[b].amount, Multiplier(s))];
    assert CashOutAlone(s, u, b, lim) == s3;
  }

  // ----- when a bet is paid above the crash point of its own round -----

  /** A payment above the own crash point is read in a later round with a higher one. */
  lemma PaidAboveOwnRound(start: map<User, real>, es: seq<Event>, lim: Limits, b: nat)
    requires GoodStart(start) && lim.minBet >= 0.0
    requires b < |Run(start, es, lim).bets| && Run(start, es, lim).bets[b].state.CashedOut?
    ensures var s := Run(start, es, lim);
            && s.bets[b].round <= s.bets[b].state.during < |s.rounds|
            && (s.bets[b].state.multiplier > s.rounds[s.bets[b].round] ==>
                  && s.bets[b].round < s.bets[b].state.during
                  && s.rounds[s.bets[b].round] < s.rounds[s.bets[b].state.during])
  {
    PaidWithinCrash(start, es, lim, b);
    BetsWithinLimits(start, es, lim);
    assert BetRecordOk(Run(start, es, lim), Run(start, es, lim).bets[b], lim);
  }

  /** After one more tick a cash-out of the bet pays above its own crash point. */
  ghost predicate OverpaidAfter(s: State, b: nat, raw: real, lim: Limits)
    requires b < |s.bets| && s.bets[b].round < |s.rounds|
  {
    var t := CashOutAlone(Step(s, Tick(raw), lim), s.bets[b].user, b, lim);
    && b < |t.bets| && t.bets[b].state.CashedOut? && t.bets[b].state.multiplier > s.rounds[s.bets[b].round]
  }

  lemma TickThenCashOut(start: map<User, real>, s: State, b: nat, raw: real, lim: Limits)
    requires Inv(start, s) && s.phase == Running && b < |s.bets| && Open(s.bets[b]) && !s.bets[b].locked
    ensures var m, t := if raw > 1.0 then raw else 1.0, CashOutAlone(Step(s, Tick(raw), lim), s.bets[b].user, b, lim);
            && b < |t.bets|
            && (m < s.rounds[CurrentRound(s)] ==> t.bets[b].state == CashedOut(m, CurrentRound(s)))
            && (m >= s.rounds[CurrentRound(s)] ==> Open(t.bets[b]))
  {
    ClockStepKeepsInv(start, s, Tick(raw), lim);
    var u := Step(s, Tick(raw), lim);
    if u.phase == Running { CashoutPaysCurrentMultiplier(start, u, lim, b); }
  }

  /** So, while a round runs, an open bet can be paid above its own crash point if and only
      if that is below the crash point of the running round; never, in its own round. */
  lemma OverpaidIff(start: map<User, real>, s: State, b: nat, lim: Limits)
    requires Inv(start, s) && s.phase == Running && b < |s.bets| && Open(s.bets[b]) && !s.bets[b].locked
    requires s.bets[b].round < |s.rounds|
    ensures (exists raw :: OverpaidAfter(s, b, raw, lim)) <==> s.rounds[s.bets[b].round] < s.rounds[CurrentRound(s)]
  {
    var own, current := s.rounds[s.bets[b].round], s.rounds[CurrentRound(s)];
    forall raw | OverpaidAfter(s, b, raw, lim) ensures own < current { TickThenCashOut(start, s, b, raw, lim); }
    if own < current {
      var raw := (own + current) / 2.0;
      TickThenCashOut(start, s, b, raw, lim);
      assert OverpaidAfter(s, b, raw, lim);
    }
  }

  // ----- which bets stay open -----

  /** The event commits a settlement of the round. */
  predicate Settles(s: State, e: Event, round: nat) {
    && e.CommitUpdate? && e.op < |s.ops| && s.ops[e.op] == Settling(Some(round))
    && !MustWait(s.bets, round, true)
  }

  /** A settlement of the round committed when bet b was already in the table. */
  ghost predicate SettledAt(start: map<User, real>, es: seq<Event>, lim: Limits, b: nat, round: nat, k: nat) {
    && k < |es| && Settles(Run(start, es[..k], lim), es[k], round)
    && b < |Run(start, es[..k], lim).bets|
  }

  ghost predicate WasSettled(start: map<User, real>, es: seq<Event>, lim: Limits, b: nat, round: nat) {
    exists k: nat :: SettledAt(start, es, lim, b, round, k)
  }

  lemma WasSettledSnoc(start: map<User, real>, es: seq<Event>, e: Event, lim: Limits, b: nat, round: nat)
    ensures WasSettled(start, es + [e], lim, b, round)
            <==> WasSettled(start, es, lim, b, round)
                 || (Settles(Run(start, es, lim), e, round) && b < |Run(start, es, lim).bets|)
  {
    var fs := es + [e];
    forall k: nat | k < |es|
      ensures SettledAt(start, fs, lim, b, round, k) <==> SettledAt(start, es, lim, b, round, k)
    {
      assert fs[..k] == es[..k];
    }
    assert fs[..|es|] == es;
    if WasSettled(start, es, lim, b, round) {
      var k: nat :| SettledAt(start, es, lim, b, round, k);
      assert SettledAt(start, fs, lim, b, round, k);
    }
    if Settles(Run(start, es, lim), e, round) && b < |Run(start, es, lim).bets| {
      assert SettledAt(start, fs, lim, b, round, |es|);
    }
  }

  lemma {:induction false} TableGrows(start: map<User, real>, es: seq<Event>, lim: Limits, n: nat)
    requires n <= |es|
    ensures |Run(start, es[..n], lim).bets| <= |Run(start, es, lim).bets|
  {
    if n == |es| {
      assert es[..n] == es;
    } else {
      assert es[..|es| - 1][..n] == es[..n];
      TableGrows(start, es[..|es| - 1], lim, n);
      BetsGrowByFreshKeys(Run(start, es[..|es| - 1], lim), es[|es| - 1], lim);
    }
  }

  lemma OpenRowUpdate(s: State, o: nat, lim: Limits, b: nat)
    requires b < |s.bets| && Open(s.bets[b])
    ensures b < |Step(s, CommitUpdate(o), lim).bets|
    ensures Step(s, CommitUpdate(o), lim).bets[b].state.Lost? <==> Settles(s, CommitUpdate(o), s.bets[b].round)
    ensures !Step(s, CommitUpdate(o), lim).bets[b].state.CashedOut?
  {
  }

  /** What a step does to an open row: it stays open unless it is paid or its round settled. */
  lemma OpenRowStep(s: State, e: Event, lim: Limits, b: nat)
    requires b < |s.bets| && Open(s.bets[b])
    ensures b < |Step(s, e, lim).bets|
    ensures Settles(s, e, s.bets[b].round) ==> Step(s, e, lim).bets[b].state == Lost
    ensures !Settles(s, e, s.bets[b].round) ==>
              Open(Step(s, e, lim).bets[b]) || Step(s, e, lim).bets[b].state.CashedOut?
  {
    if e.CommitUpdate? { OpenRowUpdate(s, e.op, lim, b); }
  }

  lemma UnpaidRowStep(start: map<User, real>, s: State, e: Event, lim: Limits, b: nat)
    requires Inv(start, s) && b < |s.bets| && b < |Step(s, e, lim).bets| && !Step(s, e, lim).bets[b].state.CashedOut?
    ensures !s.bets[b].state.CashedOut? && Step(s, e, lim).bets[b].round == s.bets[b].round
    ensures Open(Step(s, e, lim).bets[b]) <==> Open(s.bets[b]) && !Settles(s, e, s.bets[b].round)
  {
    StepKeepsRows(s, e, lim);
    if Open(s.bets[b]) { OpenRowStep(s, e, lim, b); } else { SettledStays(start, s, e, lim, b); }
  }

  lemma NewRowIsOpen(s: State, e: Event, lim: Limits)
    requires |Step(s, e, lim).bets| > |s.bets|
    ensures |Step(s, e, lim).bets| == |s.bets| + 1 && Open(Step(s, e, lim).bets[|s.bets|])
  {
  }

  lemma NotSettledBeforeInsert(start: map<User, real>, es: seq<Event>, lim: Limits, b: nat, round: nat)
    requires b >= |Run(start, es, lim).bets|
    ensures !WasSettled(start, es, lim, b, round)
  {
    forall k: nat | k < |es| ensures !SettledAt(start, es, lim, b, round, k) { TableGrows(start, es, lim, k); }
  }

  /** Over every run, for a bet that has not been paid: it is open, in whatever round, if
      and only if no settlement of its round has committed since its row was inserted; that
      is, none has committed, or only before the INSERT of the bet. */
  lemma {:induction false} OpenIff(start: map<User, real>, es: seq<Event>, lim: Limits, b: nat)
    requires GoodStart(start) && lim.minBet >= 0.0
    requires b < |Run(start, es, lim).bets| && !Run(start, es, lim).bets[b].state.CashedOut?
    ensures Open(Run(start, es, lim).bets[b])
            <==> !WasSettled(start, es, lim, b, Run(start, es, lim).bets[b].round)
  {
    var p, e := es[..|es| - 1], es[|es| - 1];
    var s := Run(start, p, lim);
    var round := Run(start, es, lim).bets[b].round;
    assert es == p + [e];
    WasSettledSnoc(start, p, e, lim, b, round);
    RunKeepsInv(start, p, lim);
    if b < |s.bets| {
      UnpaidRowStep(start, s, e, lim, b);
      OpenIff(start, p, lim, b);
    } else {
      NewRowIsOpen(s, e, lim);
      NotSettledBeforeInsert(start, p, lim, b, round);
    }
  }

  // ----- two ways to be paid above the own crash point -----

  function Ticks(n: nat): seq<Event> { seq(n, _ => Tick(1.0)) }

  lemma {:induction false} CountingDown(start: map<User, real>, es: seq<Event>, lim: Limits, n: nat)
    requires Run(start, es, lim).phase == Countdown && Run(start, es, lim).countdown > n
    ensures Run(start, es + Ticks(n), lim) == Run(start, es, lim).(countdown := Run(start, es, lim).countdown - n)
  {
    if n == 0 {
      assert es + Ticks(0) == es;
    } else {
      CountingDown(start, es, lim, n - 1);
      assert es + Ticks(n) == (es + Ticks(n - 1)) + [Tick(1.0)];
      RunSnoc(start, es + Ticks(n - 1), Tick(1.0), lim);
      OneTickDown(Run(start, es + Ticks(n - 1), lim), lim);
    }
  }

  lemma OneTickDown(s: State, lim: Limits)
    requires s.phase == Countdown && s.countdown > 1
    ensures Step(s, Tick(1.0), lim) == s.(countdown := s.countdown - 1)
  {
  }

  /** A whole countdown. */
  lemma CountedDown(start: map<User, real>, es: seq<Event>, lim: Limits) returns (fs: seq<Event>)
    requires Run(start, es, lim).phase == Countdown && Run(start, es, lim).countdown == COUNTDOWN_TICKS
    ensures fs == es + Ticks(49) + [Tick(1.0)]
    ensures var s := Run(start, es, lim);
            Run(start, fs, lim) == s.(phase := Running, countdown := 0, ops := s.ops + [Activating(None)])
  {
    CountingDown(start, es, lim, 49);
    RunSnoc(start, es + Ticks(49), Tick(1.0), lim);
    fs := es + Ticks(49) + [Tick(1.0)];
  }

  const ANN := map["ann" := 10.0]
  const LIMITS := Limits(1.0, 10000.0)
  const ANNS_BET := Bet("ann", 0, 10.0, "k", false, Placed, false)

  /** No activation or settlement commits in the run. */
  ghost predicate NoUpdates(es: seq<Event>) {
    forall k :: 0 <= k < |es| ==> !es[k].CommitUpdate?
  }

  /** A bet of ten in a round that would crash at 1.5, not yet inserted. */
  lemma BetUnderWay() returns (es: seq<Event>)
    ensures Pause !in es && NoUpdates(es)
    ensures Run(ANN, es, LIMITS) ==
              State(Countdown, [1.5], Some(1.0), COUNTDOWN_TICKS, [], ANN, [Inserting("ann", 10.0, "k", 0)])
  {
    es := [] + [BeginRound(1.5)];
    RunSnoc(ANN, [], BeginRound(1.5), LIMITS);
    RunSnoc(ANN, es, PlaceBet("ann", 10.0, "k"), LIMITS);
    es := es + [PlaceBet("ann", 10.0, "k")];
    RunSnoc(ANN, es, ReadRound(0), LIMITS);
    es := es + [ReadRound(0)];
  }

  /** Ann's bet is in the table, open, and her money is gone. */
  ghost predicate AnnsBetIsOpen(s: State) {
    s.rounds == [1.5] && s.balances == map["ann" := 0.0] && s.bets == [ANNS_BET]
  }

  lemma AnnsInsertCommits(s: State)
    requires s.ops != [] && s.ops[0] == Inserting("ann", 10.0, "k", 0) && s.bets == [] && s.balances == ANN
    ensures var t := Step(s, CommitBet(0, false), LIMITS);
            t.bets == [ANNS_BET] && t.balances == map["ann" := 0.0] && t.rounds == s.rounds
  {
  }

  /** The bet is inserted, and the round is paused. */
  lemma PausedRound() returns (es: seq<Event>)
    ensures Pause in es && NoUpdates(es) && AnnsBetIsOpen(Run(ANN, es, LIMITS))
  {
    es := BetUnderWay();
    RunSnoc(ANN, es, CommitBet(0, false), LIMITS);
    AnnsInsertCommits(Run(ANN, es, LIMITS));
    es := es + [CommitBet(0, false)];
    RunSnoc(ANN, es, Pause, LIMITS);
    es := es + [Pause];
  }

  lemma SettledEmptyRound(es: seq<Event>) returns (fs: seq<Event>, n: nat)
    requires Run(ANN, es, LIMITS) ==
               State(Running, [1.5], Some(1.0), 0, [], ANN, [Inserting("ann", 10.0, "k", 0), Activating(None)])
    ensures es <= fs && (Pause in fs ==> Pause in es)
    ensures n < |fs| && Settles(Run(ANN, fs[..n], LIMITS), fs[n], 0)
    ensures Run(ANN, fs, LIMITS) == State(Crashed, [1.5], Some(1.5), 0, [], ANN,
                                          [Inserting("ann", 10.0, "k", 0), Activating(None), Finished])
  {
    RunSnoc(ANN, es, Tick(2.0), LIMITS);
    fs := es + [Tick(2.0)];
    RunSnoc(ANN, fs, IssueUpdate(2), LIMITS);
    fs := fs + [IssueUpdate(2)];
    n := |fs|;
    assert Run(ANN, fs, LIMITS).ops == [Inserting("ann", 10.0, "k", 0), Activating(None), Settling(Some(0))];
    RunSnoc(ANN, fs, CommitUpdate(2), LIMITS);
    assert (fs + [CommitUpdate(2)])[..n] == fs;
    fs := fs + [CommitUpdate(2)];
  }

  /** The round crashes and is settled, and only then the INSERT of the bet commits. */
  lemma LateInsert() returns (es: seq<Event>, n: nat)
    ensures Pause !in es && n < |es| && Settles(Run(ANN, es[..n], LIMITS), es[n], 0)
    ensures AnnsBetIsOpen(Run(ANN, es, LIMITS))
  {
    es := BetUnderWay();
    es := CountedDown(ANN, es, LIMITS);
    es, n := SettledEmptyRound(es);
    RunSnoc(ANN, es, CommitBet(0, false), LIMITS);
    AnnsInsertCommits(Run(ANN, es, LIMITS));
    assert (es + [CommitBet(0, false)])[..n] == es[..n];
    es := es + [CommitBet(0, false)];
  }

  /** The next round, which crashes at 9, running at 5. */
  lemma NextRound(start: map<User, real>, es: seq<Event>, lim: Limits) returns (fs: seq<Event>)
    ensures es <= fs && (Pause in fs ==> Pause in es) && (NoUpdates(es) ==> NoUpdates(fs))
    ensures var s, t := Run(start, es, lim), Run(start, fs, lim);
            t.phase == Running && t.rounds == s.rounds + [9.0] && t.multiplier == Some(5.0)
            && t.bets == s.bets && t.balances == s.balances
  {
    RunSnoc(start, es, BeginRound(9.0), lim);
    fs := CountedDown(start, es + [BeginRound(9.0)], lim);
    RunSnoc(start, fs, Tick(5.0), lim);
    fs := fs + [Tick(5.0)];
  }

  /** Ann's bet paid at 5, more than three times the crash point of its round. */
  ghost predicate AnnIsOverpaid(s: State) {
    && s.rounds == [1.5, 9.0] && |s.bets| == 1 && s.bets[0].round == 0
    && s.bets[0].state == CashedOut(5.0, 1) && Balance(s.balances, "ann") == 50.0
  }

  lemma OpenBetIsOverpaid(es: seq<Event>) returns (fs: seq<Event>)
    requires AnnsBetIsOpen(Run(ANN, es, LIMITS))
    ensures es <= fs && (Pause in fs ==> Pause in es) && (NoUpdates(es) ==> NoUpdates(fs))
    ensures AnnIsOverpaid(Run(ANN, fs, LIMITS))
  {
    fs := NextRound(ANN, es, LIMITS);
    var s := Run(ANN, fs, LIMITS);
    RunKeepsInv(ANN, fs, LIMITS);
    CashoutPaysCurrentMultiplier(ANN, s, LIMITS, 0);
    var o := |s.ops|;
    RunSnoc(ANN, fs, Cashout("ann", 0), LIMITS);
    fs := fs + [Cashout("ann", 0)];
    RunSnoc(ANN, fs, LockBet(o), LIMITS);
    fs := fs + [LockBet(o)];
    RunSnoc(ANN, fs, CommitCashout(o), LIMITS);
    fs := fs + [CommitCashout(o)];
  }

  /** A bet left open by a pause, no settlement of any round having committed, is paid above
      the crash point of its own round. */
  lemma PausedBetIsOverpaid() returns (es: seq<Event>)
    ensures Pause in es && forall k, round :: 0 <= k < |es| ==> !Settles(Run(ANN, es[..k], LIMITS), es[k], round)
    ensures AnnIsOverpaid(Run(ANN, es, LIMITS))
  {
    var paused := PausedRound();
    es := OpenBetIsOverpaid(paused);
    assert forall i :: 0 <= i < |paused| ==> es[i] == paused[i];
  }

  /** So is, without a pause, a bet whose INSERT commits after the settlement of its round. */
  lemma LateBetIsOverpaid() returns (es: seq<Event>, n: nat)
    ensures Pause !in es && n < |es| && Settles(Run(ANN, es[..n], LIMITS), es[n], 0)
    ensures AnnIsOverpaid(Run(ANN, es, LIMITS))
  {
    es, n := LateInsert();
    var fs := OpenBetIsOverpaid(es);
    assert fs[..n] == es[..n];
    es := fs;
  }
}
