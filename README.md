# Ledger engine of a payments toy: a Dafny model

The program reads an ordered stream of transactions for client accounts. Each
transaction is a deposit, withdrawal, dispute, resolve or chargeback. It folds
the stream into one account per client: available, held and total balances and
a lock flag. Alongside the accounts the engine keeps two pieces of state. One is
the history of deposits by transaction id. The other is the set of transaction
ids under dispute. The first unreadable record or the first checked-arithmetic
failure ends the run with that error.

The model has three modules:

- `Types` (`types.dfy`) is the data model of `src/types.rs`. It holds client
  ids (u16), transaction ids (u32) and exact decimal amounts, which are
  counted in units of 0.0001 and bounded by the 96-bit decimal mantissa. It
  also holds the five transaction kinds with their lowercase tokens,
  `Transaction`, `AccountDetails` and `new_with_balance`. Last come the rules
  that turn an input record into a transaction. The amount text is trimmed;
  empty or missing means zero; anything else must parse as a decimal.
- `Engine` (`engine.dfy`) is `proccess_transactions` of `src/engine.rs`.
  `Step` is the guarded rule for one transaction, and `Replay`/`Process` are
  the fold over the stream. `ProcessTransactions` is the imperative loop. It
  updates the accounts, the deposit history and the disputed set in place,
  and is proved to compute `Process`. The module also proves the state
  invariants each rule keeps.
- `EngineLemmas` (`engine_lemmas.dfy`) proves the rest. It gives the exact
  effect of each rule and when each rule is a no-op. It proves that
  settlement is final, that accounts are never removed and locks never
  lifted, and that only deposits overflow a solvent ledger. It shows how a
  stream composes and that a read error stops it. It also proves the worked
  scenarios of the engine's unit tests for any client, and for any ids and
  amounts within the conditions each scenario states. Amounts are
  non-negative, the two deposits have distinct ids, and their sum stays in
  the decimal range. The withdrawal scenario needs a withdrawal larger than
  the deposit.

Where the code and its documentation disagree, the model follows the code:

- The doc comment at `src/types.rs:225-226` says locked accounts cannot process
  new transactions. `proccess_transactions` never reads the lock, so the model
  does not either. After a chargeback, deposits and withdrawals still apply to
  a locked account.
- A dispute does not consult the disputed set. A deposit can be disputed twice
  while its amount is still available, which holds the amount twice and marks
  the deposit disputed once. `EngineLemmas.ScenarioDoubleDispute` shows the
  result. One resolve then closes the dispute and releases one amount. The
  other amount stays held with no dispute open, so a further resolve or
  chargeback of that deposit changes nothing until it is disputed again.
- The engine writes the available balance as `availabe`, while the struct
  declares `available` (`src/types.rs:230`). The model treats them as the one
  field `available`.
- `new_with_balance` starts from the default account, so a new account's
  `client` field is 0. Only the map key records the client.

## Model

| member | source | states |
|---|---|---|
| Types.ParseTxType | src/types.rs:92-100 | only the five lowercase tokens are accepted, and each one is the token of the kind it yields |
| Types.Token | src/types.rs:92-100 | each kind is written as a non-empty lowercase word, its name; `TokenRoundTrip` shows `ParseTxType` inverts it |
| Types.DefaultAccount | src/types.rs:227-238 | the default account is all zero and unlocked; `NewWithBalance` states the account built from it |
| Types.IsWhitespace | src/types.rs:146 | the characters `str::trim` drops: those with the Unicode White_Space property; `TrimStart`, `TrimEnd` and `Trim` state what trimming with it keeps |
| Types.TokenRoundTrip | src/types.rs:92-100 | every kind's token reads back as that kind; distinct kinds have distinct tokens |
| Types.NewWithBalance | src/types.rs:236-242 | a new account has available = total = balance, nothing held, is unlocked, has client 0 (the default), is balanced, and is non-negative for a non-negative balance |
| Types.TrimStart | src/types.rs:146 | the result is a suffix of the input; what was dropped is all white space; the result does not start with white space |
| Types.TrimEnd | src/types.rs:146 | the result is a prefix of the input; what was dropped is all white space; the result does not end with white space |
| Types.Trim | src/types.rs:146-147 | the trimmed text is the front-trimmed text with only trailing white space removed, so with `TrimStart` it is the input without the white space at either end; it is empty exactly when the input is all white space, and otherwise neither starts nor ends with white space |
| Types.TrimStartPadding | src/types.rs:146 | leading white space in front of a text does not change what trimming its front yields |
| Types.TrimEndPadding | src/types.rs:146 | trailing white space behind a text does not change what trimming its end yields |
| Types.TrimStartKeepsTail | src/types.rs:146 | trimming the front of a text that is not all white space leaves whatever follows it in place |
| Types.TrimIgnoresPadding | src/types.rs:146 | white space on either side of a text does not change its trimmed form |
| Types.AmountIgnoresPadding | src/types.rs:142-152 | an amount read from text does not depend on the white space around it |
| Types.DeserializeAmount | src/types.rs:142-174 | all-white-space text is zero; other text is its trimmed form parsed as a decimal, or an invalid-decimal error naming that text; an integer is that many whole units |
| Types.AmountOrZero | src/types.rs:142-152 | the whole amount rule in one place: a missing amount and all-white-space text are zero; other text is its trimmed form parsed as a decimal, or an invalid-decimal error naming that text; an integer is that many whole units |
| Types.DeserializeTransaction | src/types.rs:184-210 | a record becomes a transaction exactly when type, client and tx are present, the type is one of the five tokens, client fits u16, tx fits u32 and the amount reads; the fields are then copied unchanged, and the amount is zero when the column is missing or blank |
| Engine.WithdrawalApplies | src/engine.rs:56-57 | a withdrawal applies when the client has an account whose available funds cover the amount; `EngineLemmas.WithdrawalRule` shows the rule is a no-op exactly otherwise |
| Engine.RefersToOwnDeposit | src/engine.rs:69-73 | the client has an account and the referenced deposit is recorded and belongs to that client; `EngineLemmas.BadReferenceIsIgnored` shows any other reference is a no-op |
| Engine.DisputeApplies | src/engine.rs:69-73 | a dispute applies to an own deposit whose amount is still available, without consulting the disputed set; characterised by `EngineLemmas.DisputeRule` |
| Engine.SettleApplies | src/engine.rs:93-99 | a resolve or chargeback applies to an own deposit that is disputed and whose amount is held; characterised by `EngineLemmas.ResolveRule` and `EngineLemmas.ChargebackRule` |
| Engine.ApplyDeposit | src/engine.rs:37-54 | the deposit rule; its exact effect is `EngineLemmas.DepositRule`, and `Engine.DepositKeepsConsistent` states the invariant it keeps |
| Engine.ApplyWithdrawal | src/engine.rs:55-67 | the withdrawal rule; characterised by `EngineLemmas.WithdrawalRule`, invariant in `Engine.WithdrawalKeepsConsistent` |
| Engine.ApplyDispute | src/engine.rs:68-91 | the dispute rule; characterised by `EngineLemmas.DisputeRule`, invariant in `Engine.DisputeKeepsConsistent` |
| Engine.ApplyResolve | src/engine.rs:92-115 | the resolve rule; characterised by `EngineLemmas.ResolveRule`, invariant in `Engine.ResolveKeepsConsistent` |
| Engine.ApplyChargeback | src/engine.rs:116-138 | the chargeback rule; characterised by `EngineLemmas.ChargebackRule`, invariant in `Engine.ChargebackKeepsConsistent` |
| Engine.Step | src/engine.rs:36-139 | one transaction dispatched on its kind; `Engine.StepKeepsConsistent`, `Engine.StepKeepsSolvent` and `EngineLemmas.StepKeepsAccountsAndLocks` state what every step keeps |
| Engine.Replay | src/engine.rs:34-35 | the stream folded in order, ending at the first read or arithmetic error; `EngineLemmas.ReplayAppend`, `EngineLemmas.FirstErrorStops` and `Engine.ReplayKeepsConsistent` characterise it |
| Engine.Process | src/engine.rs:26-143 | the accounts after the whole stream from the empty ledger; `Engine.ProcessTransactions` is proved to compute it, and `Engine.ProcessKeepsBalances` states its balances |
| Engine.ProcessTransactions | src/engine.rs:26-143 | the loop returns the first read error or arithmetic error, or else the accounts the rules produce; this is `Process` of the stream; the accounts are balanced, and none is negative when no deposit is negative |
| Engine.StepKeepsConsistent | src/engine.rs:36-139 | every rule keeps each account's total equal to available + held; the history holds only deposits under their own id, each of a client with an account; only recorded deposits are disputed |
| Engine.DepositKeepsConsistent | src/engine.rs:37-54 | a deposit keeps the state consistent |
| Engine.WithdrawalKeepsConsistent | src/engine.rs:55-67 | a withdrawal keeps the state consistent |
| Engine.DisputeKeepsConsistent | src/engine.rs:68-91 | a dispute keeps the state consistent |
| Engine.ResolveKeepsConsistent | src/engine.rs:92-115 | a resolve keeps the state consistent |
| Engine.ChargebackKeepsConsistent | src/engine.rs:116-138 | a chargeback keeps the state consistent |
| Engine.StepKeepsSolvent | src/engine.rs:36-139 | when a deposit's amount is non-negative, every rule keeps a ledger consistent with no negative balance and no negative recorded deposit |
| Engine.ReplayKeepsConsistent | src/engine.rs:34-142 | consistency holds after every stream that runs without error |
| Engine.ReplayKeepsSolvent | src/engine.rs:829-855 | when no deposit in the stream is negative, no balance is ever negative after a successful run (the property test's claim, for all streams) |
| EngineLemmas.DepositRule | src/engine.rs:37-54 | a deposit opens an account for a new client with the amount available, or credits available and total of an existing one, or fails with an arithmetic error when either sum leaves the range; it always records itself in the history |
| EngineLemmas.WithdrawalRule | src/engine.rs:55-67 | a withdrawal with no account or beyond the available funds changes nothing; otherwise it debits available and total by the amount, or fails with an arithmetic error |
| EngineLemmas.BadReferenceIsIgnored | src/engine.rs:68-138 | a dispute, resolve or chargeback with no account, an unknown transaction id or another client's deposit changes nothing |
| EngineLemmas.DisputeRule | src/engine.rs:68-91 | a dispute applies exactly when it names an own deposit whose amount is still available; it then moves the amount from available to held, leaves total and lock alone and marks the deposit disputed (or fails with an arithmetic error); otherwise it changes nothing |
| EngineLemmas.ResolveRule | src/engine.rs:92-115 | a resolve applies exactly when it names an own disputed deposit whose amount is held; it then moves the amount from held to available, leaves total and lock alone and closes the dispute (or fails); otherwise it changes nothing |
| EngineLemmas.ChargebackRule | src/engine.rs:116-138 | a chargeback applies under the resolve condition; it then removes the amount from held and total, leaves available alone, locks the account and closes the dispute (or fails); otherwise it changes nothing |
| EngineLemmas.SettleIsFinal | src/engine.rs:96-99 | after a resolve or chargeback, a second resolve or chargeback of the same client and transaction changes nothing |
| EngineLemmas.OnlyDepositsOverflow | src/engine.rs:55-138 | on a solvent ledger, withdrawals of non-negative amounts, disputes, resolves and chargebacks never fail |
| EngineLemmas.StepKeepsAccountsAndLocks | src/engine.rs:36-139 | a rule never removes an account, opens one only for a deposit's client, never lifts a lock, sets a lock only by a chargeback of that client, and never forgets a recorded deposit |
| EngineLemmas.ReplayKeepsAccountsAndLocks | src/engine.rs:34-142 | over a stream, accounts are never removed, new ones belong to clients of deposits in it, locks stay set, and new locks belong to clients of chargebacks in it |
| EngineLemmas.ReplayAppend | src/engine.rs:34-35 | running two streams one after the other is running their concatenation, and an error in the first ends the run |
| EngineLemmas.ReplayThen | src/engine.rs:34-35 | once a prefix has run to some state, the rest of the stream continues from that state |
| EngineLemmas.FirstErrorStops | src/engine.rs:35 | the first read error after a successful prefix is the outcome of the whole run |
| EngineLemmas.SuccessMeansNoReadError | src/engine.rs:35 | a successful run read every item of its stream without error |
| EngineLemmas.ProcessOneMore | src/engine.rs:34-142 | appending one transaction applies its rule to the state the stream left |
| Engine.ProcessKeepsBalances | src/engine.rs:829-855 | the accounts of a successful run are balanced, and none is negative when no deposit is negative |
| EngineLemmas.ReplayStep | src/engine.rs:34-139 | a transaction whose rule yields a state is followed by the rest of the stream from that state |
| EngineLemmas.ScenarioInsufficientFunds | src/engine.rs:184-209 | a withdrawal larger than the only deposit leaves that deposit available and total |
| EngineLemmas.ScenarioChargeback | src/engine.rs:490-525 | deposit, dispute and chargeback leave the account empty and locked and the dispute closed |
| EngineLemmas.ScenarioResolveAfterChargeback | src/engine.rs:398-441 | a resolve after a chargeback changes nothing: the account stays empty and locked |
| EngineLemmas.ScenarioResolve | src/engine.rs:302-336 | deposit, dispute and resolve leave the deposit available, nothing held, the account unlocked and the dispute closed |
| EngineLemmas.ScenarioChargebackAfterResolve | src/engine.rs:647-690 | a chargeback after a resolve changes nothing: the deposit stays available and the account unlocked |
| EngineLemmas.ScenarioTwoDeposits | src/engine.rs:443-460 | two deposits of one client add up in one account, and both are recorded |
| EngineLemmas.ScenarioDisputeBoth | src/engine.rs:443-472 | disputing both deposits moves both amounts to held and opens both disputes |
| EngineLemmas.ScenarioPartialResolve | src/engine.rs:443-488 | two deposits both disputed and the first resolved: the first amount is available, the second held, and the total is their sum |
| EngineLemmas.ScenarioDisputeTwice | src/engine.rs:68-91 | disputing one deposit twice holds its amount twice while the deposit is disputed once |
| EngineLemmas.ScenarioDoubleDispute | src/engine.rs:68-115 | after a double dispute, a first resolve releases one amount and closes the dispute, and a second resolve changes nothing, so one amount stays held with no dispute open |

## Left out

- Reading and writing CSV (`src/io.rs`) and the command line (`src/main.rs`) are not part of this model. The stream is a sequence whose items are a transaction or a read error. The record reader is abstracted as `RawRecord`, with each column present or missing.
- Types.DeserializeAmount: decimal text parsing (`Decimal::from_str`) is the parameter `parse`, not a definition. Amounts are whole units of 0.0001. The program keeps the full scale `Decimal::from_str` reads, so an amount with more than four fractional digits has no counterpart here: `parse` must reject it or round it.
- Types.DeserializeAmount: the floating-point path of the amount reader (`visit_f64`) is not modelled, because floating point is out of scope.
- Types.CheckedAdd: the decimal type's range limit is modelled as a symmetric bound of 2^96-1 units. Overflow that the decimal type avoids by dropping fractional digits is not modelled.
- Types.DeserializeTransaction: the order in which the record reader reports several bad fields is fixed here as type, client, tx, amount. The real order is the reader's.
- Output: the accounts map is returned as a map. The ordering of the output by client id and the filling of each account's `client` field at output time happen in `src/io.rs`, which is not part of this model.
- The disputed set and the deposit history are a `set` and a `map`. Hash-set and B-tree iteration order play no role in the engine.
- The random stream generator of the property test (`src/engine.rs:707-827`) is not modelled. `Engine.ReplayKeepsSolvent` proves the property for every stream whose deposits are non-negative, which covers whatever the generator produces.
