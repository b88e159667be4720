/**
 * The lottery application's persistent state, updated in place: the round
 * record of local state slot 0 and the two account-keyed maps. Each method
 * evaluates its operation's guard against the current state; when the guard
 * fails it returns false and writes nothing, otherwise it performs the
 * source's writes. Every method is specified by the matching transition
 * function of LottoSpec on the abstract state `State()`.
 */
module Lotto {
  import opened LottoSpec

  class Lottery {
    // Local state slot 0: the thirteen round fields, one record.
    var round: Round
    // Local state slot 1: each entrant's guess, keyed by the entrant.
    var tickets: map<Address, nat>
    // Local state slot 2: each checked entrant's flag (1 won, 0 lost).
    var results: map<Address, nat>

    function State(): LotteryState
      reads this
    {
      LotteryState(round, tickets, results)
    }

    /** A freshly opted-in application: every key reads as zero. */
    constructor ()
      ensures State() == LotteryState(ClearedRound, map[], map[])
    {
      round := ClearedRound;
      tickets, results := map[], map[];
    }

    method InitializeGameParams(env: Env, p: GameParams, pay: Payment, balance: nat, minBalance: nat)
      returns (ok: bool)
      modifies this
      ensures ok == InitializeGame(old(State()), env, p, pay, balance, minBalance).Some?
      ensures State() == Apply(old(State()), InitializeGame(old(State()), env, p, pay, balance, minBalance))
    {
      ok := CanInitialize(round, env, p, pay, balance, minBalance);
      if !ok {
        return;
      }
      // Lucky_Number and the three counters keep the zero the guard found.
      round := round.(
        ticketingStart := p.ticketingStart,
        ticketingDuration := p.ticketingDuration,
        withdrawalStart := p.withdrawalStart,
        ticketFee := p.ticketFee,
        winMultiplier := p.winMultiplier,
        maxPlayersAllowed := p.maxPlayersAllowed,
        maxGuessNumber := p.maxGuessNumber,
        gameMaster := env.caller,
        gameMasterDeposit := pay.amount);
    }

    method EnterGame(env: Env, guess: nat, pay: Payment) returns (ok: bool)
      modifies this
      ensures ok == LottoSpec.EnterGame(old(State()), env, guess, pay).Some?
      ensures State() == Apply(old(State()), LottoSpec.EnterGame(old(State()), env, guess, pay))
    {
      ok := CanEnter(round, env, guess, pay);
      if !ok {
        return;
      }
      round := round.(playersTicketBought := round.playersTicketBought + 1);
      tickets := tickets[env.caller := guess];
    }

    /** Draws the lucky number, then flags every ticket holder. */
    method CheckTickets(env: Env, secret: Secret, sha256: Hasher) returns (ok: bool)
      modifies this
      ensures ok == LottoSpec.CheckTickets(old(State()), env, secret, sha256).Some?
      ensures State() == Apply(old(State()), LottoSpec.CheckTickets(old(State()), env, secret, sha256))
    {
      ok := CanCheck(round, env);
      if !ok {
        return;
      }
      round := round.(luckyNumber := sha256(secret));
      if |tickets| > 0 {
        round := round.(playersTicketChecked := round.playersTicketBought);
        FlagHolders();
      }
    }

    /** The ForEach over the ticket holders: flags each holder, one per
        iteration, and counts the winners. The comparison reads the lucky
        number already stored. */
    method FlagHolders()
      modifies this`round, this`results
      ensures results == old(results) + Verdicts(tickets, round.luckyNumber)
      ensures round == old(round).(playersWon := old(round).playersWon + |Winners(tickets, old(round).luckyNumber)|)
    {
      var pending := tickets.Keys;
      NoneChecked(results, tickets, round.luckyNumber);
      while pending != {}
        invariant pending <= tickets.Keys
        invariant results == old(results) + Verdicts(tickets - pending, old(round).luckyNumber)
        invariant round == old(round).(playersWon := old(round).playersWon + |Winners(tickets - pending, old(round).luckyNumber)|)
        decreases pending
      {
        var holder :| holder in pending;
        OneMoreChecked(old(results), tickets, pending, holder, round.luckyNumber);
        if tickets[holder] == round.luckyNumber {
          results := results[holder := 1];
          round := round.(playersWon := round.playersWon + 1);
        } else {
          results := results[holder := 0];
        }
        pending := pending - {holder};
      }
      assert tickets - pending == tickets;
    }

    method ResetGame(env: Env, pay: Payment) returns (ok: bool)
      modifies this
      ensures ok == LottoSpec.ResetGame(old(State()), env, pay).Some?
      ensures State() == Apply(old(State()), LottoSpec.ResetGame(old(State()), env, pay))
    {
      ok := CanReset(round, env, pay);
      if !ok {
        return;
      }
      round := ClearedRound;
    }

    method Withdrawal(env: Env) returns (ok: bool)
      modifies this
      ensures ok == LottoSpec.Withdrawal(old(State()), env).Some?
      ensures State() == Apply(old(State()), LottoSpec.Withdrawal(old(State()), env))
    {
      ok := CanWithdraw(round, env);
      if !ok {
        return;
      }
      round := round.(withdrawalStart := 0, gameMasterDeposit := 0);
    }
  }

  // Facts about checking one more holder, used by the loop of FlagHolders.

  lemma NoneChecked(prior: map<Address, nat>, tickets: map<Address, nat>, lucky: nat)
    ensures prior == prior + Verdicts(tickets - tickets.Keys, lucky)
    ensures |Winners(tickets - tickets.Keys, lucky)| == 0
  {
    assert tickets - tickets.Keys == map[];
    assert Verdicts(map[], lucky) == map[];
  }

  lemma OneMoreChecked(prior: map<Address, nat>, tickets: map<Address, nat>, pending: set<Address>,
                       holder: Address, lucky: nat)
    requires holder in pending && pending <= tickets.Keys
    ensures prior + Verdicts(tickets - (pending - {holder}), lucky)
            == (prior + Verdicts(tickets - pending, lucky))[holder := if tickets[holder] == lucky then 1 else 0]
    ensures |Winners(tickets - (pending - {holder}), lucky)|
            == |Winners(tickets - pending, lucky)| + (if tickets[holder] == lucky then 1 else 0)
  {
    var flag := if tickets[holder] == lucky then 1 else 0;
    FlagOneMore(tickets, pending, holder, lucky);
    MergeUpdate(prior, Verdicts(tickets - pending, lucky), holder, flag);
    WinOneMore(tickets, pending, holder, lucky);
  }

  lemma FlagOneMore(tickets: map<Address, nat>, pending: set<Address>, holder: Address, lucky: nat)
    requires holder in pending && pending <= tickets.Keys
    ensures Verdicts(tickets - (pending - {holder}), lucky)
            == Verdicts(tickets - pending, lucky)[holder := if tickets[holder] == lucky then 1 else 0]
  {
    assert (tickets - (pending - {holder})).Keys == (tickets - pending).Keys + {holder};
  }

  lemma MergeUpdate(prior: map<Address, nat>, flags: map<Address, nat>, holder: Address, flag: nat)
    ensures prior + flags[holder := flag] == (prior + flags)[holder := flag]
  {
  }

  lemma WinOneMore(tickets: map<Address, nat>, pending: set<Address>, holder: Address, lucky: nat)
    requires holder in pending && pending <= tickets.Keys
    ensures |Winners(tickets - (pending - {holder}), lucky)|
            == |Winners(tickets - pending, lucky)| + (if tickets[holder] == lucky then 1 else 0)
  {
    var won, won' := Winners(tickets - pending, lucky), Winners(tickets - (pending - {holder}), lucky);
    if tickets[holder] == lucky {
      assert won' == won + {holder};
    } else {
      assert won' == won;
    }
  }
}
