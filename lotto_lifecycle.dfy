/**
 * Sequences of application calls against the lottery state: the dispatch of
 * one call to one operation, runs of calls where a rejected call leaves the
 * state as it was, the chained call of the deployed program, and the
 * properties that hold across calls.
 */
module LottoLifecycle {
  import opened LottoSpec

  /** The operation an application call selects, with its arguments. */
  datatype Command =
    | Initialize(params: GameParams, pay: Payment, balance: nat, minBalance: nat)
    | Enter(guess: nat, pay: Payment)
    | Check(secret: Secret)
    | Reset(pay: Payment)
    | Withdraw

  datatype Call = Call(env: Env, command: Command)

  /** One application call performing exactly the operation it selects. */
  function Step(s: LotteryState, c: Call, sha256: Hasher): (r: Option<LotteryState>)
    ensures c.command.Initialize? ==>
              (r.Some? <==> CanInitialize(s.round, c.env, c.command.params, c.command.pay,
                                          c.command.balance, c.command.minBalance))
    ensures c.command.Enter? ==> (r.Some? <==> CanEnter(s.round, c.env, c.command.guess, c.command.pay))
    ensures c.command.Check? ==> (r.Some? <==> CanCheck(s.round, c.env))
    ensures c.command.Reset? ==> (r.Some? <==> CanReset(s.round, c.env, c.command.pay))
    ensures c.command.Withdraw? ==> (r.Some? <==> CanWithdraw(s.round, c.env))
  {
    match c.command
    case Initialize(p, pay, balance, minBalance) => InitializeGame(s, c.env, p, pay, balance, minBalance)
    case Enter(guess, pay) => EnterGame(s, c.env, guess, pay)
    case Check(secret) => CheckTickets(s, c.env, secret, sha256)
    case Reset(pay) => ResetGame(s, c.env, pay)
    case Withdraw => Withdrawal(s, c.env)
  }

  /** The state after a sequence of calls; the ledger drops rejected calls. */
  function Run(s: LotteryState, calls: seq<Call>, sha256: Hasher): LotteryState
    decreases |calls|
  {
    if calls == [] then s else Run(Apply(s, Step(s, calls[0], sha256)), calls[1..], sha256)
  }

  /**
   * The call the deployed program makes for every existing application:
   * enter_game, check_tickets, reset_game and withdrawal in one sequence,
   * where any failed assertion aborts the whole call.
   */
  function EnterCheckResetWithdraw(s: LotteryState, env: Env, guess: nat, ticketPay: Payment,
                                   secret: Secret, resetPay: Payment, sha256: Hasher)
    : (r: Option<LotteryState>)
    ensures r.None?
  {
    match EnterGame(s, env, guess, ticketPay)
    case None => None
    case Some(entered) =>
      match CheckTickets(entered, env, secret, sha256)
      case None => None
      case Some(checked) =>
        match ResetGame(checked, env, resetPay)
        case None => None
        case Some(reset) => Withdrawal(reset, env)
  }

  /** Selected on its own, Withdraw does succeed once its time has come. */
  lemma DispatchedWithdrawSucceeds(s: LotteryState, env: Env, sha256: Hasher)
    requires s.round.withdrawalStart > 0 && env.now >= s.round.withdrawalStart
    ensures Step(s, Call(env, Withdraw), sha256).Some?
    ensures Step(s, Call(env, Withdraw), sha256).value.round.withdrawalStart == 0
  {
  }

  // ----------------------------------------------------------- round invariant

  /** Either no round is configured at all, or a configured one. */
  predicate WellFormed(r: Round) {
    IsCleared(r) || ActiveRound(r)
  }

  lemma StepPreservesWellFormed(s: LotteryState, c: Call, sha256: Hasher)
    requires WellFormed(s.round)
    ensures WellFormed(Apply(s, Step(s, c, sha256)).round)
  {
  }

  /** Every reachable round is well formed; in particular the number of
      tickets sold never exceeds the capacity. */
  lemma {:induction false} RunPreservesWellFormed(s: LotteryState, calls: seq<Call>, sha256: Hasher)
    requires WellFormed(s.round)
    ensures WellFormed(Run(s, calls, sha256).round)
    ensures Run(s, calls, sha256).round.playersTicketBought <= Run(s, calls, sha256).round.maxPlayersAllowed
    decreases |calls|
  {
    if calls != [] {
      StepPreservesWellFormed(s, calls[0], sha256);
      RunPreservesWellFormed(Apply(s, Step(s, calls[0], sha256)), calls[1..], sha256);
    }
  }

  // -------------------------------------------------------------- one-shot ops

  /** The lucky number is drawn once per round: a second draw is rejected. */
  lemma CheckTicketsOnce(s: LotteryState, env: Env, secret: Secret, env': Env, secret': Secret, sha256: Hasher)
    requires CheckTickets(s, env, secret, sha256).Some?
    ensures CheckTickets(CheckTickets(s, env, secret, sha256).value, env', secret', sha256).None?
  {
  }

  /** Within a round the lucky number, once drawn, never changes: only a
      Reset takes it back to zero. */
  lemma {:induction false} RunKeepsLuckyNumber(s: LotteryState, calls: seq<Call>, sha256: Hasher)
    requires s.round.luckyNumber != 0
    requires forall i :: 0 <= i < |calls| ==> !calls[i].command.Reset?
    ensures Run(s, calls, sha256).round.luckyNumber == s.round.luckyNumber
    decreases |calls|
  {
    if calls != [] {
      var next := Apply(s, Step(s, calls[0], sha256));
      assert next.round.luckyNumber == s.round.luckyNumber;
      RunKeepsLuckyNumber(next, calls[1..], sha256);
    }
  }

  /** After a Reset no round is configured, so Initialize's reset check
      passes, and a second Reset is rejected. */
  lemma ResetClearsRound(s: LotteryState, env: Env, pay: Payment, env': Env, pay': Payment,
                         p: GameParams, initPay: Payment, balance: nat, minBalance: nat)
    requires ResetGame(s, env, pay).Some?
    ensures ResetGame(ResetGame(s, env, pay).value, env', pay').None?
    ensures InitializeGame(ResetGame(s, env, pay).value, env', p, initPay, balance, minBalance).Some?
            <==> CanInitialize(ClearedRound, env', p, initPay, balance, minBalance)
  {
  }

  /** A Withdraw cannot be repeated. */
  lemma WithdrawOnce(s: LotteryState, env: Env, env': Env)
    requires Withdrawal(s, env).Some?
    ensures Withdrawal(Withdrawal(s, env).value, env').None?
  {
  }

  // ---------------------------------------------------- a withdrawn round stays

  /** A configured round whose withdrawal start has been cleared. */
  predicate Withdrawn(r: Round) {
    r.ticketingStart > 0 && r.withdrawalStart == 0
  }

  lemma WithdrawLeavesRoundWithdrawn(s: LotteryState, env: Env)
    requires WellFormed(s.round)
    requires Withdrawal(s, env).Some?
    ensures Withdrawn(Withdrawal(s, env).value.round)
  {
  }

  /** Once withdrawn, a round can neither be reset nor replaced by a new one:
      Reset needs a non-zero withdrawal start and Initialize a zero ticketing
      start, and no operation restores either. */
  lemma {:induction false} WithdrawnRoundIsPermanent(s: LotteryState, calls: seq<Call>, sha256: Hasher)
    requires Withdrawn(s.round)
    ensures Withdrawn(Run(s, calls, sha256).round)
    ensures forall c: Call :: c.command.Reset? || c.command.Initialize? ==> Step(Run(s, calls, sha256), c, sha256).None?
    decreases |calls|
  {
    if calls != [] {
      var next := Apply(s, Step(s, calls[0], sha256));
      assert Withdrawn(next.round);
      WithdrawnRoundIsPermanent(next, calls[1..], sha256);
    }
  }

  // ------------------------------------------------------------------ examples

  /** An Enter call that passes every check of EnterGame but capacity. */
  predicate PaidEntry(r: Round, c: Call) {
    && c.command.Enter?
    && 0 < c.command.guess <= r.maxGuessNumber
    && PaysApp(c.command.pay, c.env, BuyNote)
    && c.command.pay.amount == r.ticketFee
  }

  /** A round for three players sells exactly three tickets: three paid
      entries succeed and any fourth entry is rejected for want of capacity. */
  lemma CapacityOfThree(s: LotteryState, calls: seq<Call>, last: Call, sha256: Hasher)
    requires ActiveRound(s.round) && s.round.maxPlayersAllowed == 3 && s.round.playersTicketBought == 0
    requires |calls| == 3 && forall i :: 0 <= i < 3 ==> PaidEntry(s.round, calls[i])
    requires last.command.Enter?
    ensures Run(s, calls, sha256).round.playersTicketBought == 3
    ensures Step(Run(s, calls, sha256), last, sha256).None?
  {
    var s1 := Apply(s, Step(s, calls[0], sha256));
    var s2 := Apply(s1, Step(s1, calls[1], sha256));
    var s3 := Apply(s2, Step(s2, calls[2], sha256));
    assert s1.round == s.round.(playersTicketBought := 1);
    assert s2.round == s.round.(playersTicketBought := 2);
    assert s3.round == s.round.(playersTicketBought := 3);
    assert calls[1..][1..][1..] == [];
    calc {
      Run(s, calls, sha256);
      Run(s1, calls[1..], sha256);
      Run(s2, calls[1..][1..], sha256);
      Run(s3, calls[1..][1..][1..], sha256);
      s3;
    }
  }

  /** Guesses 5, 42 and 99 against a drawn 42: one winner, flagged 1, the
      other two flagged 0, and all three tickets checked. */
  lemma OneWinnerAmongThree(s: LotteryState, env: Env, secret: Secret, sha256: Hasher)
    requires s.tickets == map[1 := 5, 2 := 42, 3 := 99]
    requires sha256(secret) == 42
    requires CanCheck(s.round, env) && s.round.playersTicketBought == 3 && s.round.playersWon == 0
    ensures var t := CheckTickets(s, env, secret, sha256).value;
      && t.round.playersWon == 1
      && t.round.playersTicketChecked == 3
      && t.results[2] == 1 && t.results[1] == 0 && t.results[3] == 0
  {
    assert 1 in s.tickets && 2 in s.tickets && 3 in s.tickets;
    assert Winners(s.tickets, 42) == {2};
    var t := CheckTickets(s, env, secret, sha256).value;
    assert t.round.luckyNumber == 42;
  }

  /** Reset leaves the tickets of the previous round in place, and a later
      round's draw checks them: a new round nobody entered can still count
      winners. */
  lemma StaleTicketsAreChecked(s: LotteryState, owner: Address, resetEnv: Env, resetPay: Payment,
                               initEnv: Env, p: GameParams, initPay: Payment, balance: nat, minBalance: nat,
                               checkEnv: Env, secret: Secret, sha256: Hasher)
    requires owner in s.tickets && sha256(secret) == s.tickets[owner]
    requires ResetGame(s, resetEnv, resetPay).Some?
    requires InitializeGame(ResetGame(s, resetEnv, resetPay).value, initEnv, p, initPay, balance, minBalance).Some?
    requires p.ticketingStart + p.ticketingDuration < checkEnv.now
    ensures var renewed := InitializeGame(ResetGame(s, resetEnv, resetPay).value, initEnv, p, initPay, balance, minBalance).value;
      var t := CheckTickets(renewed, checkEnv, secret, sha256).value;
      && renewed.round.playersTicketBought == 0
      && t.results[owner] == 1
      && t.round.playersWon >= 1 > t.round.playersTicketBought
  {
    var renewed := InitializeGame(ResetGame(s, resetEnv, resetPay).value, initEnv, p, initPay, balance, minBalance).value;
    assert owner in Winners(renewed.tickets, sha256(secret));
  }
}
