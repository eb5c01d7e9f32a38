/** What each outcome in the house game goes back to: every bet to a call in a countdown,
    every payment to a call of its owner while a round ran, every lock to a cash-out, every
    settlement to the round current when it was sent; and what each operation does when
    nothing interleaves. */
module GameHistory {
  import opened MiniGame
  import opened Options

  // ----- calls and where they were made -----

  ghost predicate CalledAt(start: map<User, real>, es: seq<Event>, lim: Limits, e: Event, phase: Phase, k: nat) {
    k < |es| && es[k] == e && Run(start, es[..k], lim).phase == phase
  }

  /** The call was made, and the game was in that phase. */
  ghost predicate CalledIn(start: map<User, real>, es: seq<Event>, lim: Limits, e: Event, phase: Phase) {
    exists k: nat :: CalledAt(start, es, lim, e, phase, k)
  }

  lemma CalledStays(start: map<User, real>, es: seq<Event>, next: Event, lim: Limits, e: Event, phase: Phase)
    requires CalledIn(start, es, lim, e, phase)
    ensures CalledIn(start, es + [next], lim, e, phase)
  {
    var k: nat :| CalledAt(start, es, lim, e, phase, k);
    assert (es + [next])[..k] == es[..k];
    assert CalledAt(start, es + [next], lim, e, phase, k);
  }

  lemma CalledNow(start: map<User, real>, es: seq<Event>, e: Event, lim: Limits)
    ensures CalledIn(start, es + [e], lim, e, Run(start, es, lim).phase)
  {
    assert (es + [e])[..|es|] == es;
    assert CalledAt(start, es + [e], lim, e, Run(start, es, lim).phase, |es|);
  }

  ghost predicate BetAsked(start: map<User, real>, es: seq<Event>, lim: Limits, b: nat, bet: Bet) {
    && CalledIn(start, es, lim, PlaceBet(bet.user, bet.amount, bet.key), Countdown)
    && (bet.state.CashedOut? ==> CalledIn(start, es, lim, Cashout(bet.user, b), Running))
  }

  ghost predicate OpAsked(start: map<User, real>, es: seq<Event>, lim: Limits, op: Op) {
    match op
    case Placing(u, a, k) => CalledIn(start, es, lim, PlaceBet(u, a, k), Countdown)
    case Inserting(u, a, k, _) => CalledIn(start, es, lim, PlaceBet(u, a, k), Countdown)
    case Cashing(u, b) => CalledIn(start, es, lim, Cashout(u, b), Running)
    case CashingLocked(u, b, _, _) => CalledIn(start, es, lim, Cashout(u, b), Running)
    case _ => true
  }

  ghost predicate AskedInv(start: map<User, real>, es: seq<Event>, lim: Limits) {
    var s := Run(start, es, lim);
    && (forall b :: 0 <= b < |s.bets| ==> BetAsked(start, es, lim, b, s.bets[b]))
    && (forall o :: 0 <= o < |s.ops| ==> OpAsked(start, es, lim, s.ops[o]))
  }

  lemma BetStaysAsked(start: map<User, real>, es: seq<Event>, next: Event, lim: Limits, b: nat, bet: Bet)
    requires BetAsked(start, es, lim, b, bet)
    ensures BetAsked(start, es + [next], lim, b, bet)
  {
    CalledStays(start, es, next, lim, PlaceBet(bet.user, bet.amount, bet.key), Countdown);
    if bet.state.CashedOut? { CalledStays(start, es, next, lim, Cashout(bet.user, b), Running); }
  }

  lemma OpStaysAsked(start: map<User, real>, es: seq<Event>, next: Event, lim: Limits, op: Op)
    requires OpAsked(start, es, lim, op)
    ensures OpAsked(start, es + [next], lim, op)
  {
    match op
    case Placing(u, a, k) => CalledStays(start, es, next, lim, PlaceBet(u, a, k), Countdown);
    case Inserting(u, a, k, _) => CalledStays(start, es, next, lim, PlaceBet(u, a, k), Countdown);
    case Cashing(u, b) => CalledStays(start, es, next, lim, Cashout(u, b), Running);
    case CashingLocked(u, b, _, _) => CalledStays(start, es, next, lim, Cashout(u, b), Running);
    case _ =>
  }

  /** Where an operation that an event starts or moves along comes from. */
  lemma NewOpCases(s: State, e: Event, lim: Limits, o: nat)
    requires o < |Step(s, e, lim).ops| && (o < |s.ops| ==> Step(s, e, lim).ops[o] != s.ops[o])
    ensures match Step(s, e, lim).ops[o]
            case Placing(u, a, k) => e == PlaceBet(u, a, k) && s.phase == Countdown
            case Inserting(u, a, k, _) => o < |s.ops| && s.ops[o] == Placing(u, a, k)
            case Cashing(u, b) => e == Cashout(u, b) && s.phase == Running
            case CashingLocked(u, b, _, _) => o < |s.ops| && s.ops[o] == Cashing(u, b)
            case _ => true
  {
  }

  /** The operation an event starts or moves along was asked for. */
  lemma NewOpIsAsked(start: map<User, real>, es: seq<Event>, e: Event, lim: Limits, o: nat)
    requires AskedInv(start, es, lim) && o < |Step(Run(start, es, lim), e, lim).ops|
    requires o < |Run(start, es, lim).ops| ==> Step(Run(start, es, lim), e, lim).ops[o] != Run(start, es, lim).ops[o]
    ensures OpAsked(start, es + [e], lim, Step(Run(start, es, lim), e, lim).ops[o])
  {
    var s := Run(start, es, lim);
    CalledNow(start, es, e, lim);
    NewOpCases(s, e, lim, o);
    if o < |s.ops| { OpStaysAsked(start, es, e, lim, s.ops[o]); }
  }

  /** What a step may do to one bet: what matters for who asked. */
  lemma BetStep(start: map<User, real>, s: State, e: Event, lim: Limits, b: nat)
    requires Inv(start, s) && b < |s.bets|
    ensures b < |Step(s, e, lim).bets|
    ensures var x, y := s.bets[b], Step(s, e, lim).bets[b];
            && y.user == x.user && y.amount == x.amount && y.key == x.key
            && (y.state.CashedOut? && !x.state.CashedOut? ==>
                  e.CommitCashout? && e.op < |s.ops| && s.ops[e.op].CashingLocked?
                  && s.ops[e.op].bet == b && s.ops[e.op].user == x.user)
  {
    if e.CommitCashout? && e.op < |s.ops| && s.ops[e.op].CashingLocked? { assert OpOk(s, s.ops[e.op]); }
  }

  lemma OldBetIsAsked(start: map<User, real>, es: seq<Event>, e: Event, lim: Limits, b: nat)
    requires AskedInv(start, es, lim) && Inv(start, Run(start, es, lim)) && b < |Run(start, es, lim).bets|
    ensures b < |Step(Run(start, es, lim), e, lim).bets|
    ensures BetAsked(start, es + [e], lim, b, Step(Run(start, es, lim), e, lim).bets[b])
  {
    var s := Run(start, es, lim);
    BetStep(start, s, e, lim, b);
    BetStaysAsked(start, es, e, lim, b, s.bets[b]);
    if e.CommitCashout? && e.op < |s.ops| { OpStaysAsked(start, es, e, lim, s.ops[e.op]); }
  }

  lemma NewBetIsAsked(start: map<User, real>, es: seq<Event>, e: Event, lim: Limits)
    requires AskedInv(start, es, lim) && |Step(Run(start, es, lim), e, lim).bets| > |Run(start, es, lim).bets|
    ensures var n := |Run(start, es, lim).bets|;
            BetAsked(start, es + [e], lim, n, Step(Run(start, es, lim), e, lim).bets[n])
  {
    var s := Run(start, es, lim);
    OpStaysAsked(start, es, e, lim, s.ops[e.op]);
  }

  lemma {:induction false} RunIsAsked(start: map<User, real>, es: seq<Event>, lim: Limits)
    requires GoodStart(start) && lim.minBet >= 0.0
    ensures AskedInv(start, es, lim)
  {
    if es != [] {
      var p, e := es[..|es| - 1], es[|es| - 1];
      var s, t := Run(start, p, lim), Run(start, es, lim);
      assert es == p + [e];
      RunIsAsked(start, p, lim);
      RunKeepsInv(start, p, lim);
      forall b | 0 <= b < |t.bets| ensures BetAsked(start, es, lim, b, t.bets[b]) {
        BetsGrowByFreshKeys(s, e, lim);
        if b < |s.bets| { OldBetIsAsked(start, p, e, lim, b); } else { NewBetIsAsked(start, p, e, lim); }
      }
      forall o | 0 <= o < |t.ops| ensures OpAsked(start, es, lim, t.ops[o]) {
        if o < |s.ops| && t.ops[o] == s.ops[o] {
          OpStaysAsked(start, p, e, lim, s.ops[o]);
        } else {
          NewOpIsAsked(start, p, e, lim, o);
        }
      }
    }
  }

  // ----- theorems over every run -----

  /** Every bet goes back to a call of its user, with its amount and key, in a countdown. */
  lemma BetsAreCalledInCountdown(start: map<User, real>, es: seq<Event>, lim: Limits, b: nat)
    requires GoodStart(start) && lim.minBet >= 0.0 && b < |Run(start, es, lim).bets|
    ensures var bet := Run(start, es, lim).bets[b];
            exists k :: 0 <= k < |es| && es[k] == PlaceBet(bet.user, bet.amount, bet.key)
                        && Run(start, es[..k], lim).phase == Countdown
  {
    var bet := Run(start, es, lim).bets[b];
    RunIsAsked(start, es, lim);
    assert BetAsked(start, es, lim, b, bet);
    var k: nat :| CalledAt(start, es, lim, PlaceBet(bet.user, bet.amount, bet.key), Countdown, k);
    assert es[k] == PlaceBet(bet.user, bet.amount, bet.key);
  }

  /** Every paid bet goes back to a cash-out by its own user while a round was running. */
  lemma PaymentsAreCalledByOwner(start: map<User, real>, es: seq<Event>, lim: Limits, b: nat)
    requires GoodStart(start) && lim.minBet >= 0.0
    requires b < |Run(start, es, lim).bets| && Run(start, es, lim).bets[b].state.CashedOut?
    ensures exists k :: 0 <= k < |es| && es[k] == Cashout(Run(start, es, lim).bets[b].user, b)
                        && Run(start, es[..k], lim).phase == Running
  {
    var bet := Run(start, es, lim).bets[b];
    RunIsAsked(start, es, lim);
    assert BetAsked(start, es, lim, b, bet);
    var k: nat :| CalledAt(start, es, lim, Cashout(bet.user, b), Running, k);
    assert es[k] == Cashout(bet.user, b);
  }

  lemma BetAcceptedIff(s: State, u: User, a: real, key: string, lim: Limits)
    requires ClockInv(s)
    ensures Step(s, PlaceBet(u, a, key), lim).ops
            == s.ops + (if s.phase == Countdown && lim.minBet <= a <= lim.maxBet then [Placing(u, a, key)] else [])
  {
  }

  lemma CashoutAcceptedIff(s: State, u: User, b: nat, lim: Limits)
    requires ClockInv(s)
    ensures Step(s, Cashout(u, b), lim).ops == s.ops + (if s.phase == Running then [Cashing(u, b)] else [])
  {
  }

  /** And a bet is accepted exactly in a countdown and within the limits, a cash-out exactly
      while a round runs. */
  lemma AcceptedIff(start: map<User, real>, es: seq<Event>, lim: Limits, u: User, a: real, key: string, b: nat)
    requires GoodStart(start) && lim.minBet >= 0.0
    ensures var s := Run(start, es, lim);
            && Step(s, PlaceBet(u, a, key), lim).ops
               == s.ops + (if s.phase == Countdown && lim.minBet <= a <= lim.maxBet then [Placing(u, a, key)] else [])
            && Step(s, Cashout(u, b), lim).ops == s.ops + (if s.phase == Running then [Cashing(u, b)] else [])
  {
    RunKeepsInv(start, es, lim);
    BetAcceptedIff(Run(start, es, lim), u, a, key, lim);
    CashoutAcceptedIff(Run(start, es, lim), u, b, lim);
  }

  // ----- locks -----

  ghost predicate HoldsLock(s: State, o: nat, b: nat) {
    o < |s.ops| && s.ops[o].CashingLocked? && s.ops[o].bet == b
  }

  ghost predicate LocksHeld(s: State) {
    forall b :: 0 <= b < |s.bets| && s.bets[b].locked ==> exists o: nat :: HoldsLock(s, o, b)
  }

  lemma HolderStays(s: State, e: Event, lim: Limits, o: nat, b: nat)
    requires OpsInv(s) && HoldsLock(s, o, b) && b < |s.bets|
    requires b < |Step(s, e, lim).bets| && Step(s, e, lim).bets[b].locked
    ensures HoldsLock(Step(s, e, lim), o, b)
  {
    assert OpOk(s, s.ops[o]);
    if (e.CommitCashout? || e.Abort?) && e.op < |s.ops| && s.ops[e.op].CashingLocked? { assert OpOk(s, s.ops[e.op]); }
  }

  lemma NewLockIsHeld(s: State, e: Event, lim: Limits, b: nat)
    requires b < |Step(s, e, lim).bets| && Step(s, e, lim).bets[b].locked && (b < |s.bets| ==> !s.bets[b].locked)
    ensures e.LockBet? && HoldsLock(Step(s, e, lim), e.op, b)
  {
  }

  lemma StepKeepsLocksHeld(s: State, e: Event, lim: Limits, b: nat)
    requires OpsInv(s) && LocksHeld(s) && b < |Step(s, e, lim).bets| && Step(s, e, lim).bets[b].locked
    ensures exists o: nat :: HoldsLock(Step(s, e, lim), o, b)
  {
    if b < |s.bets| && s.bets[b].locked {
      var o: nat :| HoldsLock(s, o, b);
      HolderStays(s, e, lim, o, b);
    } else {
      NewLockIsHeld(s, e, lim, b);
    }
  }

  /** In every run a row is locked exactly while a cash-out holds it, so none stays locked
      after its cash-out has committed or failed. */
  lemma LockedIffHeld(start: map<User, real>, es: seq<Event>, lim: Limits)
    requires GoodStart(start) && lim.minBet >= 0.0
    ensures var s := Run(start, es, lim);
            forall b :: 0 <= b < |s.bets| ==> (s.bets[b].locked <==> exists o: nat :: HoldsLock(s, o, b))
  {
    LocksAreHeld(start, es, lim);
    RunKeepsInv(start, es, lim);
    var s := Run(start, es, lim);
    forall o: nat, b: nat | HoldsLock(s, o, b) ensures b < |s.bets| && s.bets[b].locked { assert OpOk(s, s.ops[o]); }
  }

  lemma {:induction false} LocksAreHeld(start: map<User, real>, es: seq<Event>, lim: Limits)
    requires GoodStart(start) && lim.minBet >= 0.0
    ensures LocksHeld(Run(start, es, lim))
  {
    if es != [] {
      var s, e := Run(start, es[..|es| - 1], lim), es[|es| - 1];
      LocksAreHeld(start, es[..|es| - 1], lim);
      RunKeepsInv(start, es[..|es| - 1], lim);
      forall b | 0 <= b < |Step(s, e, lim).bets| && Step(s, e, lim).bets[b].locked
        ensures exists o: nat :: HoldsLock(Step(s, e, lim), o, b)
      {
        StepKeepsLocksHeld(s, e, lim, b);
      }
    }
  }

  // ----- operations that nothing interleaves -----

  /** A placement on its own. */
  function BetAlone(s: State, u: User, a: real, key: string, promoLeft: bool, lim: Limits): State {
    Step(Step(Step(s, PlaceBet(u, a, key), lim), ReadRound(|s.ops|), lim), CommitBet(|s.ops|, promoLeft), lim)
  }

  /** In a countdown and within the limits: a known key changes nothing; else a balance that
      covers the stake is debited by it; else a promo entry pays if there is one, and no
      balance changes; else nothing happens. The bet is of the current round. */
  lemma BetAloneResult(start: map<User, real>, s: State, u: User, a: real, key: string, promoLeft: bool, lim: Limits)
    requires Inv(start, s) && s.phase == Countdown && lim.minBet <= a <= lim.maxBet
    ensures var t := BetAlone(s, u, a, key, promoLeft, lim);
            var bal := Balance(s.balances, u);
            if (exists i :: 0 <= i < |s.bets| && s.bets[i].key == key) || (bal < a && !promoLeft)
            then t.bets == s.bets && t.balances == s.balances
            else
              && t.bets == s.bets + [Bet(u, |s.rounds| - 1, a, key, bal < a, Placed, false)]
              && forall v :: Balance(t.balances, v) == Balance(s.balances, v) - (if v == u && bal >= a then a else 0.0)
  {
    var o := |s.ops|;
    var s1 := Step(s, PlaceBet(u, a, key), lim);
    assert s1.ops[o] == Placing(u, a, key);
    var s2 := Step(s1, ReadRound(o), lim);
    assert s2.ops[o] == Inserting(u, a, key, |s.rounds| - 1) && s2.bets == s.bets && s2.balances == s.balances;
    assert KeyUsed(s.bets, key) <==> exists i :: 0 <= i < |s.bets| && s.bets[i].key == key;
  }

  /** A cash-out of a bet that is not there, another user's or not open any more ends and
      changes nothing. */
  lemma OthersBetIsRefused(s: State, o: nat, lim: Limits)
    requires o < |s.ops| && s.ops[o].Cashing? && s.rounds != []
    requires var p := s.ops[o]; p.bet < |s.bets| && s.bets[p.bet].user == p.user ==>
               !Open(s.bets[p.bet]) && !s.bets[p.bet].locked
    ensures Step(s, LockBet(o), lim) == s.(ops := s.ops[o := Finished])
  {
  }

  /** A second cash-out of a bet waits for the first; once that commits it ends and pays
      nothing, and if that fails it gets the row and the multiplier of that moment. */
  lemma SecondCashoutWaits(start: map<User, real>, s: State, o: nat, p: nat, lim: Limits)
    requires Inv(start, s) && o < |s.ops| && s.ops[o].CashingLocked? && s.rounds != []
    requires p < |s.ops| && s.ops[p] == Cashing(s.ops[o].user, s.ops[o].bet)
    ensures Step(s, LockBet(p), lim) == s
    ensures var paid := Step(s, CommitCashout(o), lim);
            Step(paid, LockBet(p), lim) == paid.(ops := paid.ops[p := Finished])
    ensures Step(Step(s, Abort(o), lim), LockBet(p), lim)
            == s.(ops := s.ops[o := Finished][p := CashingLocked(s.ops[o].user, s.ops[o].bet, s.multiplier.value,
                                                                 |s.rounds| - 1)])
  {
    assert OpOk(s, s.ops[o]);
    var b := s.ops[o].bet;
    OthersBetIsRefused(Step(s, CommitCashout(o), lim), p, lim);
    assert s.bets[b := s.bets[b].(locked := false)][b := s.bets[b]] == s.bets;
  }

  /** An operation that throws is over: it leaves the tables as they were but for the row lock
      it held. */
  lemma AbortEnds(start: map<User, real>, s: State, o: nat, lim: Limits)
    requires Inv(start, s) && o < |s.ops|
    ensures var t := Step(s, Abort(o), lim);
            && t.ops == s.ops[o := Finished] && t.balances == s.balances && |t.bets| == |s.bets|
            && forall b :: 0 <= b < |s.bets| ==>
                 t.bets[b] == if HoldsLock(s, o, b) then s.bets[b].(locked := false) else s.bets[b]
  {
    assert OpOk(s, s.ops[o]);
  }

  /** And what is over stays so. */
  lemma FinishedStays(s: State, e: Event, lim: Limits, o: nat)
    requires o < |s.ops| && s.ops[o] == Finished
    ensures o < |Step(s, e, lim).ops| && Step(s, e, lim).ops[o] == Finished
  {
  }

  /** The callback, then the UPDATE it schedules. */
  function TickAndUpdate(s: State, raw: real, lim: Limits): State {
    Step(Step(Step(s, Tick(raw), lim), IssueUpdate(|s.ops|), lim), CommitUpdate(|s.ops|), lim)
  }

  lemma UpdateAlone(s: State, o: nat, lim: Limits, settle: bool)
    requires o < |s.ops| && s.rounds != [] && s.ops[o] == (if settle then Settling(None) else Activating(None))
    requires !MustWait(s.bets, |s.rounds| - 1, settle)
    ensures var t := Step(Step(s, IssueUpdate(o), lim), CommitUpdate(o), lim);
            && t.bets == UpdateRows(s.bets, |s.rounds| - 1, settle) && t.balances == s.balances
            && t.phase == s.phase && t.multiplier == s.multiplier && t.rounds == s.rounds
  {
    var u := Step(s, IssueUpdate(o), lim);
    assert u.ops[o].issued == Some(|s.rounds| - 1) && u.bets == s.bets;
  }

  /** A tick at or past the crash point ends the round at that point and loses exactly the
      open bets of the round; no money moves. */
  lemma CrashLosesOpenBets(start: map<User, real>, s: State, raw: real, lim: Limits)
    requires Inv(start, s) && s.phase == Running && raw >= s.rounds[|s.rounds| - 1]
    requires forall b :: 0 <= b < |s.bets| ==> !s.bets[b].locked
    ensures var t := TickAndUpdate(s, raw, lim);
            && t.phase == Crashed && t.multiplier == Some(s.rounds[|s.rounds| - 1]) && t.balances == s.balances
            && |t.bets| == |s.bets|
            && forall b :: 0 <= b < |s.bets| ==>
                 t.bets[b] == if s.bets[b].round == |s.rounds| - 1 && Open(s.bets[b])
                              then s.bets[b].(state := Lost) else s.bets[b]
  {
    var u := Step(s, Tick(raw), lim);
    assert u.ops[|s.ops|] == Settling(None) && u.bets == s.bets;
    UpdateAlone(u, |s.ops|, lim, true);
  }

  /** The last tick of a countdown starts the round and activates exactly its placed bets. */
  lemma RoundActivatesBets(start: map<User, real>, s: State, raw: real, lim: Limits)
    requires Inv(start, s) && s.phase == Countdown && s.countdown <= 1
    requires forall b :: 0 <= b < |s.bets| ==> !s.bets[b].locked
    ensures var t := TickAndUpdate(s, raw, lim);
            && t.phase == Running && t.multiplier == s.multiplier && t.balances == s.balances && |t.bets| == |s.bets|
            && forall b :: 0 <= b < |s.bets| ==>
                 t.bets[b] == if s.bets[b].round == |s.rounds| - 1 && s.bets[b].state.Placed?
                              then s.bets[b].(state := Active) else s.bets[b]
  {
    var u := Step(s, Tick(raw), lim);
    assert u.ops[|s.ops|] == Activating(None) && u.bets == s.bets;
    UpdateAlone(u, |s.ops|, lim, false);
  }

  /** After a pause ticks do nothing and neither bets nor cash-outs are accepted. */
  lemma PauseIsQuiet(s: State, lim: Limits, raw: real, u: User, a: real, key: string, b: nat)
    ensures var t := Step(s, Pause, lim);
            && t == s.(phase := Idle)
            && Step(t, Tick(raw), lim) == t
            && Step(t, PlaceBet(u, a, key), lim) == t && Step(t, Cashout(u, b), lim) == t
  {
  }

  // ----- the round of an UPDATE -----

  ghost predicate SentAt(start: map<User, real>, es: seq<Event>, lim: Limits, o: nat, round: nat, k: nat) {
    k < |es| && es[k] == IssueUpdate(o) && |Run(start, es[..k], lim).rounds| == round + 1
  }

  ghost predicate RoundIsOfSending(start: map<User, real>, es: seq<Event>, lim: Limits) {
    var s := Run(start, es, lim);
    forall o :: 0 <= o < |s.ops| && (s.ops[o].Activating? || s.ops[o].Settling?) && s.ops[o].issued.Some? ==>
      exists k: nat :: SentAt(start, es, lim, o, s.ops[o].issued.value, k)
  }

  /** In every run an activation or settlement is of the round that was current when its
      UPDATE was sent. */
  lemma {:induction false} UpdatesAreOfTheirRound(start: map<User, real>, es: seq<Event>, lim: Limits)
    ensures RoundIsOfSending(start, es, lim)
  {
    if es != [] {
      var p, e := es[..|es| - 1], es[|es| - 1];
      var s, t := Run(start, p, lim), Run(start, es, lim);
      UpdatesAreOfTheirRound(start, p, lim);
      forall o | 0 <= o < |t.ops| && (t.ops[o].Activating? || t.ops[o].Settling?) && t.ops[o].issued.Some?
        ensures exists k: nat :: SentAt(start, es, lim, o, t.ops[o].issued.value, k)
      {
        if o < |s.ops| && s.ops[o] == t.ops[o] {
          var k: nat :| SentAt(start, p, lim, o, s.ops[o].issued.value, k);
          assert es[..k] == p[..k];
          assert SentAt(start, es, lim, o, t.ops[o].issued.value, k);
        } else {
          SentNow(s, e, lim, o);
          assert SentAt(start, es, lim, o, t.ops[o].issued.value, |p|);
        }
      }
    }
  }

  lemma SentNow(s: State, e: Event, lim: Limits, o: nat)
    requires o < |Step(s, e, lim).ops| && (o < |s.ops| ==> s.ops[o] != Step(s, e, lim).ops[o])
    requires var x := Step(s, e, lim).ops[o]; (x.Activating? || x.Settling?) && x.issued.Some?
    ensures e == IssueUpdate(o) && |s.rounds| == Step(s, e, lim).ops[o].issued.value + 1
  {
  }
}
