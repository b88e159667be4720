# Lottery round state machine, modelled in Dafny

This project models the PyTeal lottery application in `Backend/contracts/lotto.py`.
The application runs one lottery round at a time. It has five guarded operations:

- **Initialize** (`initialize_game_params`): an operator funds and configures a round.
- **EnterGame** (`enter_game`): a player buys a ticket carrying a guess.
- **CheckTickets** (`check_tickets`): draws the lucky number from the hash of a revealed secret. It then flags every ticket holder as a winner (1) or a loser (0) and counts the winners.
- **Reset** (`reset_game`): the application's creator zeroes the round.
- **Withdraw** (`withdrawal`): clears the withdrawal start and the operator's deposit.

Each operation is a conjunction of checks followed by writes. When any check fails, the ledger rejects the whole call and nothing changes.

The project has three modules:

- `LottoSpec` (`lotto_spec.dfy`) holds the values:
  - the thirteen round fields (`Round`);
  - the guesses and win/lose flags keyed by account (`LotteryState.tickets`, `LotteryState.results`);
  - the companion payment and what the ledger tells a call (`Payment`, `Env`);
  - each operation as a guard predicate and a transition function that returns `None` on rejection.
  The transition functions' postconditions state what the source guarantees about each operation.
- `Lotto` (`lotto.dfy`) holds the class `Lottery`. It has three fields: `round`, a record of the thirteen keys of local-state slot 0, and the `tickets` and `results` maps. It has one method per operation. Each method updates these fields in place. A run of `App.localPut` writes to slot 0 becomes one update of the record. Each method is proved to leave exactly the state the matching transition function describes, or the old state when it fails. `CheckTickets` runs its `ForEach` over ticket holders as a `while` loop, with invariants for the flags written so far and the winners counted so far.
- `LottoLifecycle` (`lotto_lifecycle.dfy`) holds sequences of calls:
  - one call dispatched to one operation (`Step`);
  - runs of calls, in which rejected calls change nothing;
  - the chained call the deployed program actually makes;
  - the invariants and one-shot properties, proved by induction over runs;
  - the worked examples: a round of three seats, and guesses 5, 42 and 99.

Inputs that come from the ledger are parameters: the current time, the caller, the creator, the application address, the companion payment, and the application's balance and minimum balance. The SHA-256 of the revealed secret is a function parameter of type `Hasher`, whose results are non-zero positive integers (`Digest`). The model assumes a digest is never zero. Without that assumption the one-shot guard `Lucky_Number == 0` would be meaningless.

Where the program's design description and the code disagree, the model follows the code:

- **The chained call.** The description says each of the four chained operations is skipped when its own guard fails. In the code every guard is an `Assert`, so one failed guard aborts the whole call (line 158).
- **The all-or-nothing invariant.** The description says the round fields are always all zero or all populated. The code breaks this: Withdraw zeroes only two fields.
- **`Players_Ticket_Checked`.** The description calls it the number of tickets resolved. The code copies `Players_Ticket_Bought` into it (line 83).
- **The win flag.** The description calls it a boolean. The code stores 1 or 0.

## Model

| member | source | states |
|---|---|---|
| `LottoSpec.InitializeGame` | Backend/contracts/lotto.py:5-47 | Accepted exactly when the reset checks, the payment checks and the parameter bounds hold. Acceptance requires all 13 round fields to be zero and Game_Master to be the zero address. Afterwards the seven parameters are stored, Game_Master is the caller and the deposit is the payment amount. Lucky number and counters stay zero. The withdrawal start exceeds ticketing start + duration + 900. The round meets the fee, multiplier, guess and capacity bounds. Payment + balance − minimum balance exceeds maxPlayers × (multiplier − 1) × fee. The maps are unchanged. |
| `LottoSpec.EnterGame` | Backend/contracts/lotto.py:49-65 | Rejected when the round is full, when the guess is 0 or above Max_Guess_Number, or when the payment has the wrong amount, note, type, receiver or sender. Accepted otherwise. On success the sold count goes up by exactly 1 and stays at or below capacity. No other round field changes. The caller's ticket is set to the guess, so a repeat entry overwrites it. Other tickets and the results are unchanged. |
| `LottoSpec.CheckTickets` | Backend/contracts/lotto.py:67-95 | Accepted exactly when ticketing has started, start + duration < now and no number has been drawn. The stored lucky number is then the digest, which is non-zero. Every ticket holder's flag is 1 if their guess equals the stored number and 0 otherwise; other accounts' flags are untouched. With at least one ticket, Players_Ticket_Checked = Players_Ticket_Bought and Players_Won grows by exactly the number of matching holders, and by no more than the number of holders. With no tickets, only the lucky number changes. |
| `LottoSpec.WinnersAtMostHolders` | Backend/contracts/lotto.py:84-92 | The holders whose guess matches are never more numerous than the holders. |
| `LottoSpec.ResetGame` | Backend/contracts/lotto.py:97-124 | Rejected when the caller is not the creator, when the withdrawal start is 0 or still in the future, or when the payment is not a zero-amount `reset_game` payment from the creator. Accepted exactly when all checks hold. On success all 13 round fields are zero, Game_Master is the zero address, and tickets and results are kept. |
| `LottoSpec.Withdrawal` | Backend/contracts/lotto.py:126-136 | Accepted exactly when withdrawal start > 0 and now ≥ withdrawal start, whoever calls. On success only the withdrawal start and the deposit become 0. Every other field and both maps are unchanged. |
| `Lotto.Lottery.constructor` | Backend/contracts/lotto.py:10-22 | A fresh application reads every round field as zero, with Game_Master the zero address, and has no tickets or results. |
| `Lotto.Lottery.InitializeGameParams` | Backend/contracts/lotto.py:5-47 | Returns whether `InitializeGame` accepts. The new fields are exactly that function's state, or the old ones on rejection. Only the nine keys the source writes are updated. |
| `Lotto.Lottery.EnterGame` | Backend/contracts/lotto.py:49-65 | Returns whether `EnterGame` accepts. The new fields are exactly that function's state, or the old ones on rejection. |
| `Lotto.Lottery.CheckTickets` | Backend/contracts/lotto.py:67-95 | Returns whether `CheckTickets` accepts. The new fields are exactly that function's state, or the old ones on rejection. The lucky number is stored before the holders are compared against it. |
| `Lotto.Lottery.FlagHolders` | Backend/contracts/lotto.py:84-92 | After the loop over all ticket holders, the flags are the old flags overridden by each holder's 1/0 verdict. Players_Won has grown by the number of holders whose guess matches the stored number. |
| `Lotto.Lottery.ResetGame` | Backend/contracts/lotto.py:97-124 | Returns whether `ResetGame` accepts. The new fields are exactly that function's state, or the old ones on rejection. |
| `Lotto.Lottery.Withdrawal` | Backend/contracts/lotto.py:126-136 | Returns whether `Withdrawal` accepts. The new fields are exactly that function's state, or the old ones on rejection. |
| `LottoLifecycle.Step` | Backend/contracts/lotto.py:139-143 | One call performs the one operation it selects. It succeeds exactly when that operation's own guard holds. |
| `LottoLifecycle.EnterCheckResetWithdraw` | Backend/contracts/lotto.py:158 | The chained enter, check, reset and withdraw call never succeeds, whatever the state and arguments: a successful reset leaves the withdrawal start at 0, so the withdrawal's guard fails. |
| `LottoLifecycle.DispatchedWithdrawSucceeds` | Backend/contracts/lotto.py:126-136 | Selected on its own, Withdraw succeeds once the withdrawal start has passed, and clears it. |
| `LottoLifecycle.StepPreservesWellFormed` | Backend/contracts/lotto.py:5-136 | Every operation keeps the round either cleared or configured. Configured means the Initialize bounds hold, the withdrawal start is 0 or after the sale window + 900, and checked ≤ bought ≤ capacity. |
| `LottoLifecycle.RunPreservesWellFormed` | Backend/contracts/lotto.py:5-136 | The same invariant holds after any sequence of calls. In particular Players_Ticket_Bought ≤ Max_Players_Allowed always holds. |
| `LottoLifecycle.CheckTicketsOnce` | Backend/contracts/lotto.py:75-80 | After a successful CheckTickets, a second one is always rejected, whatever its time and secret. |
| `LottoLifecycle.RunKeepsLuckyNumber` | Backend/contracts/lotto.py:77-80 | Once drawn, the lucky number keeps its value through any sequence of calls that contains no Reset. |
| `LottoLifecycle.ResetClearsRound` | Backend/contracts/lotto.py:97-124 | After a successful Reset, an immediate second Reset is rejected. A following Initialize is decided by its payment and parameter checks alone, because its reset check now holds. |
| `LottoLifecycle.WithdrawOnce` | Backend/contracts/lotto.py:126-136 | An immediate second Withdraw is always rejected. |
| `LottoLifecycle.WithdrawLeavesRoundWithdrawn` | Backend/contracts/lotto.py:130-135 | A successful Withdraw on a well-formed round leaves ticketing start > 0 and withdrawal start = 0, a partly zeroed round. |
| `LottoLifecycle.WithdrawnRoundIsPermanent` | Backend/contracts/lotto.py:97-136 | After a Withdraw, no sequence of calls makes Reset or Initialize succeed again. Reset needs a non-zero withdrawal start, Initialize needs a zero ticketing start, and no operation restores either. |
| `LottoLifecycle.CapacityOfThree` | Backend/contracts/lotto.py:53-63 | In a round for three players, three paid entries bring the sold count to 3, and any fourth entry is rejected. |
| `LottoLifecycle.OneWinnerAmongThree` | Backend/contracts/lotto.py:80-92 | Guesses 5, 42 and 99 against a drawn 42 give Players_Won = 1 and Players_Ticket_Checked = 3. The 42-guesser is flagged 1 and the other two are flagged 0. |
| `LottoLifecycle.StaleTicketsAreChecked` | Backend/contracts/lotto.py:81-123 | Reset does not clear tickets, and a later round's draw checks them. A new round that sold no ticket can therefore report a winner: Players_Won ≥ 1 > Players_Ticket_Bought = 0. |

## Left out

- The nested `Cond` dispatch on the application id (lines 145-166) and `compileTeal` (lines 168-169) are left out; each operation is called directly. The creation branch at line 139 passes zero for every Initialize argument. That call would always be rejected, because a ticketing start of 0 is not after now + 180. The model takes the arguments as parameters instead.
- Local-state slots are merged into one store. In the source, slot `Int(0)` is the calling account's local state, so each caller reads and writes its own copy of the round fields. The model keeps one round record, one tickets map (slot 1) and one results map (slot 2), as if every call used the same accounts.
- `localGetEx` is read as a plain value, without its `MaybeValue` wrapper. A missing key reads as 0.
- The ledger's balance, minimum balance, latest timestamp, creator address and application address are parameters. So are the grouped companion transaction and its transaction type. The ledger's own rules for them are not modelled.
- SHA-256 is not computed; it is the `Hasher` parameter, and digests are assumed non-zero. In the source the digest is a byte string stored under a key that is compared with integers. The model treats the lucky number and the guesses as integers.
- TEAL's uint64 arithmetic is not modelled: the integers are unbounded. An addition or product that overflows would abort the call in the source but is accepted by the model. An underflow in `amount + balance - minBalance` or `win_multiplier - 1` also aborts the source, and the model rejects those same calls: its comparison is false whenever the result would be negative, and the multiplier must exceed 1 anyway.
- No funds are moved: neither a prize payout nor the operator's withdrawal transfers anything in the source, and the model likewise only updates the bookkeeping fields.
- Consecutive writes to slot-0 keys are grouped into one record update. Nothing reads those keys between the writes, so the final state is the same.
- The order in which `ForEach` visits ticket holders is not fixed. The loop picks any unvisited holder. The final flags and winner count do not depend on the order.

## Findings

| source | as written | input that shows it | evidently intended | confidence | as-written member | corrected member |
|---|---|---|---|---|---|---|
| Backend/contracts/lotto.py:158 | Every call on an existing application runs `enter_game`, `check_tickets`, `reset_game` and `withdrawal` in one sequence, and any failed `Assert` aborts the whole call. | Any state and any arguments. If the first three steps succeed, `reset_game` has set Withdrawal_Start to 0, so `withdrawal`'s first check fails. No call after creation can ever change the state. | Each call performs the one operation it selects, and succeeds when that operation's guard holds. | high; not executed | `LottoLifecycle.EnterCheckResetWithdraw` | `LottoLifecycle.Step` |
