/**
 * The lottery round as values: the round configuration, the two
 * account-keyed maps, the ledger inputs an application call sees, and the
 * five guarded transitions of the program as pure functions.
 *
 * Each transition returns `None` when its guard (the source's `Assert(And(...))`)
 * fails; the ledger then discards the whole call, so nothing changes.
 */
module LottoSpec {

  /** Accounts. Address 0 plays the role of the ledger's zero address. */
  type Address = nat
  const ZeroAddress: Address := 0

  /** The argument handed to CheckTickets, and its digest. A digest is never
      zero: the round's one-shot guard relies on it. */
  type Secret = seq<bv8>
  type Digest = d: nat | d > 0 witness 1
  type Hasher = Secret -> Digest

  const MinInitialFunding: nat := 1000000
  const MinTicketFee: nat := 1000000
  const TicketingLeadTime: nat := 180
  const MinTicketingDuration: nat := 900
  const WithdrawalDelay: nat := 900
  const MinMaxGuessNumber: nat := 99

  const InitNote: string := "init_game"
  const BuyNote: string := "buy_ticket"
  const ResetNote: string := "reset_game"

  datatype Option<T> = None | Some(value: T)

  /** The companion transaction of the atomic group. */
  datatype Payment = Payment(receiver: Address, sender: Address, isPayment: bool, amount: nat, note: string)

  /** What the ledger tells the program about the current call. */
  datatype Env = Env(now: nat, caller: Address, creator: Address, app: Address)

  /** The seven arguments of initialize_game_params that become round fields. */
  datatype GameParams = GameParams(
    ticketingStart: nat,
    ticketingDuration: nat,
    ticketFee: nat,
    withdrawalStart: nat,
    winMultiplier: nat,
    maxGuessNumber: nat,
    maxPlayersAllowed: nat)

  /** The thirteen round fields kept in local state slot 0. */
  datatype Round = Round(
    ticketingStart: nat,
    ticketingDuration: nat,
    withdrawalStart: nat,
    luckyNumber: nat,
    ticketFee: nat,
    winMultiplier: nat,
    maxPlayersAllowed: nat,
    maxGuessNumber: nat,
    playersTicketBought: nat,
    playersTicketChecked: nat,
    playersWon: nat,
    gameMaster: Address,
    gameMasterDeposit: nat)

  /** The round plus the guesses (slot 1) and the win/lose flags (slot 2). */
  datatype LotteryState = LotteryState(round: Round, tickets: map<Address, nat>, results: map<Address, nat>)

  const ClearedRound: Round := Round(0, 0, 0, 0, 0, 0, 0, 0, 0, 0, 0, ZeroAddress, 0)

  /** No round is configured: every field at its zero value. */
  predicate IsCleared(r: Round) {
    r == ClearedRound
  }

  /** The parameters a round was configured with. */
  function ParamsOf(r: Round): GameParams {
    GameParams(r.ticketingStart, r.ticketingDuration, r.ticketFee, r.withdrawalStart,
               r.winMultiplier, r.maxGuessNumber, r.maxPlayersAllowed)
  }

  /** What the escrow must cover: every seat winning its net prize. */
  function Liability(maxPlayers: nat, winMultiplier: nat, ticketFee: nat): int {
    maxPlayers * (winMultiplier - 1) * ticketFee
  }

  /** The bounds Initialize puts on fee, multiplier, guess range, capacity and
      sale window. */
  predicate BoundsHold(ticketingDuration: nat, ticketFee: nat, winMultiplier: nat, maxGuessNumber: nat, maxPlayersAllowed: nat) {
    && ticketingDuration > MinTicketingDuration
    && ticketFee >= MinTicketFee
    && maxGuessNumber > MinMaxGuessNumber
    && maxPlayersAllowed > 0
    && winMultiplier > 1
  }

  predicate ValidParams(p: GameParams) {
    && BoundsHold(p.ticketingDuration, p.ticketFee, p.winMultiplier, p.maxGuessNumber, p.maxPlayersAllowed)
    && p.withdrawalStart > p.ticketingStart + p.ticketingDuration + WithdrawalDelay
  }

  /** A configured round: the bounds of Initialize hold (the withdrawal start
      may since have been cleared by Withdraw), and the counters are ordered. */
  predicate ActiveRound(r: Round) {
    && r.ticketingStart > 0
    && BoundsHold(r.ticketingDuration, r.ticketFee, r.winMultiplier, r.maxGuessNumber, r.maxPlayersAllowed)
    && (r.withdrawalStart == 0 || r.withdrawalStart > r.ticketingStart + r.ticketingDuration + WithdrawalDelay)
    && r.playersTicketChecked <= r.playersTicketBought <= r.maxPlayersAllowed
  }

  /** The companion transaction pays the application, comes from the caller
      and carries the given tag. */
  predicate PaysApp(pay: Payment, env: Env, note: string) {
    pay.receiver == env.app && pay.sender == env.caller && pay.isPayment && pay.note == note
  }

  /** Commits the new state when the guard held; a rejected call changes nothing. */
  function Apply(s: LotteryState, r: Option<LotteryState>): (t: LotteryState)
    ensures r.None? ==> t == s
    ensures r.Some? ==> t == r.value
  {
    if r.Some? then r.value else s
  }

  // ---------------------------------------------------------------- Initialize

  predicate CanInitialize(r: Round, env: Env, p: GameParams, pay: Payment, balance: nat, minBalance: nat) {
    && IsCleared(r)
    && PaysApp(pay, env, InitNote)
    && pay.amount >= MinInitialFunding
    // An underflow aborts the program; the comparison below is false exactly then.
    && pay.amount + balance - minBalance > Liability(p.maxPlayersAllowed, p.winMultiplier, p.ticketFee)
    && p.ticketingStart > env.now + TicketingLeadTime
    && ValidParams(p)
  }

  function InitializeGame(s: LotteryState, env: Env, p: GameParams, pay: Payment, balance: nat, minBalance: nat)
    : (r: Option<LotteryState>)
    ensures r.Some? <==> CanInitialize(s.round, env, p, pay, balance, minBalance)
    ensures r.Some? ==> IsCleared(s.round) && ActiveRound(r.value.round)
    ensures r.Some? ==> ParamsOf(r.value.round) == p
    ensures r.Some? ==> r.value.round.gameMaster == env.caller && r.value.round.gameMasterDeposit == pay.amount
    ensures r.Some? ==> && r.value.round.luckyNumber == 0 && r.value.round.playersTicketBought == 0
                        && r.value.round.playersTicketChecked == 0 && r.value.round.playersWon == 0
    ensures r.Some? ==> r.value.round.withdrawalStart > r.value.round.ticketingStart + r.value.round.ticketingDuration + WithdrawalDelay
    ensures r.Some? ==> r.value.round.ticketingStart > env.now + TicketingLeadTime
    ensures r.Some? ==> pay.amount + balance - minBalance >
                        Liability(r.value.round.maxPlayersAllowed, r.value.round.winMultiplier, r.value.round.ticketFee) >= 0
    ensures r.Some? ==> r.value.tickets == s.tickets && r.value.results == s.results
  {
    if CanInitialize(s.round, env, p, pay, balance, minBalance) then
      // Lucky_Number and the three counters are not written: the guard found them zero.
      Some(s.(round := s.round.(
        ticketingStart := p.ticketingStart,
        ticketingDuration := p.ticketingDuration,
        withdrawalStart := p.withdrawalStart,
        ticketFee := p.ticketFee,
        winMultiplier := p.winMultiplier,
        maxPlayersAllowed := p.maxPlayersAllowed,
        maxGuessNumber := p.maxGuessNumber,
        gameMaster := env.caller,
        gameMasterDeposit := pay.amount)))
    else
      None
  }

  // ----------------------------------------------------------------- EnterGame

  predicate CanEnter(r: Round, env: Env, guess: nat, pay: Payment) {
    && r.playersTicketBought < r.maxPlayersAllowed
    && 0 < guess <= r.maxGuessNumber
    && PaysApp(pay, env, BuyNote)
    && pay.amount == r.ticketFee
  }

  function EnterGame(s: LotteryState, env: Env, guess: nat, pay: Payment): (r: Option<LotteryState>)
    ensures s.round.playersTicketBought >= s.round.maxPlayersAllowed ==> r.None?
    ensures guess == 0 || guess > s.round.maxGuessNumber ==> r.None?
    ensures pay.amount != s.round.ticketFee || pay.note != BuyNote || !pay.isPayment ==> r.None?
    ensures pay.receiver != env.app || pay.sender != env.caller ==> r.None?
    ensures r.Some? <==> CanEnter(s.round, env, guess, pay)
    ensures r.Some? ==> r.value.round.playersTicketBought == s.round.playersTicketBought + 1
                        <= r.value.round.maxPlayersAllowed
    ensures r.Some? ==> r.value.round.(playersTicketBought := s.round.playersTicketBought) == s.round
    ensures r.Some? ==> r.value.tickets.Keys == s.tickets.Keys + {env.caller} && r.value.tickets[env.caller] == guess
    ensures r.Some? ==> forall a :: a in s.tickets && a != env.caller ==> r.value.tickets[a] == s.tickets[a]
    ensures r.Some? ==> r.value.results == s.results
  {
    if CanEnter(s.round, env, guess, pay) then
      Some(LotteryState(
        s.round.(playersTicketBought := s.round.playersTicketBought + 1),
        s.tickets[env.caller := guess],
        s.results))
    else
      None
  }

  // -------------------------------------------------------------- CheckTickets

  /** The ticket holders whose guess equals the drawn number. */
  function Winners(tickets: map<Address, nat>, lucky: nat): set<Address> {
    set a | a in tickets && tickets[a] == lucky
  }

  /** There are never more winners than ticket holders. */
  lemma WinnersAtMostHolders(tickets: map<Address, nat>, lucky: nat)
    ensures |Winners(tickets, lucky)| <= |tickets|
  {
    SubsetCardinality(Winners(tickets, lucky), tickets.Keys);
  }

  lemma {:induction false} SubsetCardinality<T>(a: set<T>, b: set<T>)
    requires a <= b
    ensures |a| <= |b|
    decreases b
  {
    if a != {} {
      var x :| x in a;
      SubsetCardinality(a - {x}, b - {x});
    }
  }

  /** Flag per ticket holder: 1 when the guess matches, else 0. */
  function Verdicts(tickets: map<Address, nat>, lucky: nat): map<Address, nat> {
    map a | a in tickets :: if tickets[a] == lucky then 1 else 0
  }

  predicate CanCheck(r: Round, env: Env) {
    && r.ticketingStart > 0
    && r.ticketingStart + r.ticketingDuration < env.now
    && r.luckyNumber == 0
  }

  function CheckTickets(s: LotteryState, env: Env, secret: Secret, sha256: Hasher): (r: Option<LotteryState>)
    ensures r.Some? <==> CanCheck(s.round, env)
    ensures r.Some? ==> r.value.round.luckyNumber == sha256(secret) != 0
    ensures r.Some? ==> r.value.tickets == s.tickets
    ensures r.Some? ==> forall a :: a in s.tickets ==>
                          a in r.value.results &&
                          (r.value.results[a] == 1 <==> s.tickets[a] == r.value.round.luckyNumber) &&
                          (r.value.results[a] == 0 <==> s.tickets[a] != r.value.round.luckyNumber)
    ensures r.Some? ==> forall a :: a !in s.tickets ==>
                          (a in r.value.results <==> a in s.results) &&
                          (a in s.results ==> r.value.results[a] == s.results[a])
    ensures r.Some? && |s.tickets| > 0 ==>
              && r.value.round.playersTicketChecked == r.value.round.playersTicketBought
              && r.value.round.playersWon == s.round.playersWon + |Winners(s.tickets, r.value.round.luckyNumber)|
              && r.value.round.playersWon <= s.round.playersWon + |s.tickets|
    ensures r.Some? && |s.tickets| > 0 ==>
              r.value.round.(luckyNumber := 0, playersTicketChecked := s.round.playersTicketChecked,
                             playersWon := s.round.playersWon) == s.round
    ensures r.Some? && |s.tickets| == 0 ==> r.value == s.(round := s.round.(luckyNumber := sha256(secret)))
  {
    if CanCheck(s.round, env) then
      var lucky := sha256(secret);
      var drawn := s.round.(luckyNumber := lucky);
      if |s.tickets| > 0 then
        WinnersAtMostHolders(s.tickets, lucky);
        Some(LotteryState(
          drawn.(playersTicketChecked := drawn.playersTicketBought,
                 playersWon := drawn.playersWon + |Winners(s.tickets, lucky)|),
          s.tickets,
          s.results + Verdicts(s.tickets, lucky)))
      else
        Some(s.(round := drawn))
    else
      None
  }

  // --------------------------------------------------------------------- Reset

  predicate CanReset(r: Round, env: Env, pay: Payment) {
    && env.caller == env.creator
    && r.withdrawalStart > 0
    && env.now >= r.withdrawalStart
    && pay.receiver == env.app
    && pay.sender == env.creator
    && pay.isPayment
    && pay.amount == 0
    && pay.note == ResetNote
  }

  function ResetGame(s: LotteryState, env: Env, pay: Payment): (r: Option<LotteryState>)
    ensures env.caller != env.creator ==> r.None?
    ensures s.round.withdrawalStart == 0 || env.now < s.round.withdrawalStart ==> r.None?
    ensures pay.amount != 0 || pay.note != ResetNote || pay.sender != env.creator ==> r.None?
    ensures r.Some? <==> CanReset(s.round, env, pay)
    ensures r.Some? ==> IsCleared(r.value.round) && r.value.round.gameMaster == ZeroAddress
    ensures r.Some? ==> r.value.tickets == s.tickets && r.value.results == s.results
  {
    if CanReset(s.round, env, pay) then Some(s.(round := ClearedRound)) else None
  }

  // ------------------------------------------------------------------ Withdraw

  predicate CanWithdraw(r: Round, env: Env) {
    r.withdrawalStart > 0 && env.now >= r.withdrawalStart
  }

  function Withdrawal(s: LotteryState, env: Env): (r: Option<LotteryState>)
    ensures r.Some? <==> s.round.withdrawalStart > 0 && env.now >= s.round.withdrawalStart
    ensures r.Some? ==> r.value.round.withdrawalStart == 0 && r.value.round.gameMasterDeposit == 0
    ensures r.Some? ==> r.value.round.(withdrawalStart := s.round.withdrawalStart,
                                       gameMasterDeposit := s.round.gameMasterDeposit) == s.round
    ensures r.Some? ==> r.value.tickets == s.tickets && r.value.results == s.results
  {
    if CanWithdraw(s.round, env) then
      Some(s.(round := s.round.(withdrawalStart := 0, gameMasterDeposit := 0)))
    else
      None
  }
}
