/**
  The ledger state machine (src/engine.rs). A run folds an ordered stream of
  transactions, each of which may instead be a read error, into a map from
  client to account. Besides the accounts the engine keeps the history of
  deposits by transaction id and the set of transaction ids under dispute.

  `Step` is the guarded transition of one transaction, `Replay` and `Process`
  the fold over the stream; `ProcessTransactions` is the loop that updates the
  three pieces of state in place, proved to compute `Process`.
*/
module Engine {
  import opened Wrappers
  import opened Types

  /** Accounts by client. */
  type Accounts = map<ClientId, AccountDetails>

  /** The stream a run reads: each item is a transaction or the error that reading it produced. */
  type Events = seq<Result<Transaction, Error>>

  /** Everything the engine keeps between two transactions. */
  datatype Ledger = Ledger(
    accounts: Accounts,
    depositHistory: map<TxId, Transaction>,
    disputed: set<TxId>)

  /** The state before the first transaction: nothing at all. */
  const Initial: Ledger := Ledger(map[], map[], {})

  /** A withdrawal applies when the client has an account whose available funds cover it. */
  predicate WithdrawalApplies(s: Ledger, t: Transaction) {
    t.client in s.accounts && t.amount <= s.accounts[t.client].available
  }

  /** The deposit `t` refers to is recorded and belongs to the client of `t`, who has an account. */
  predicate RefersToOwnDeposit(s: Ledger, t: Transaction) {
    t.client in s.accounts && t.tx in s.depositHistory && s.depositHistory[t.tx].client == t.client
  }

  /** A dispute applies to an own deposit whose amount is still available; the disputed set is not consulted. */
  predicate DisputeApplies(s: Ledger, t: Transaction) {
    RefersToOwnDeposit(s, t) && s.accounts[t.client].available >= s.depositHistory[t.tx].amount
  }

  /** A resolve or chargeback applies to an own deposit that is under dispute and whose amount is held. */
  predicate SettleApplies(s: Ledger, t: Transaction) {
    RefersToOwnDeposit(s, t) && t.tx in s.disputed && s.accounts[t.client].held >= s.depositHistory[t.tx].amount
  }

  function ApplyDeposit(s: Ledger, t: Transaction): Result<Ledger, Error> {
    var history := s.depositHistory[t.tx := t];
    if t.client in s.accounts then
      var account := s.accounts[t.client];
      match CheckedAdd(account.available, t.amount)
      case None => Err(Arithmetic("Overflow in deposit available balance"))
      case Some(available) =>
        match CheckedAdd(account.total, t.amount)
        case None => Err(Arithmetic("Overflow in deposit total balance"))
        case Some(total) =>
          Ok(s.(accounts := s.accounts[t.client := account.(available := available, total := total)],
                depositHistory := history))
    else
      Ok(s.(accounts := s.accounts[t.client := NewWithBalance(t.amount)], depositHistory := history))
  }

  function ApplyWithdrawal(s: Ledger, t: Transaction): Result<Ledger, Error> {
    if !WithdrawalApplies(s, t) then Ok(s)
    else
      var account := s.accounts[t.client];
      match CheckedSub(account.total, t.amount)
      case None => Err(Arithmetic("Underflow in withdrawal total balance"))
      case Some(total) =>
        match CheckedSub(account.available, t.amount)
        case None => Err(Arithmetic("Underflow in withdrawal available balance"))
        case Some(available) =>
          Ok(s.(accounts := s.accounts[t.client := account.(available := available, total := total)]))
  }

  function ApplyDispute(s: Ledger, t: Transaction): Result<Ledger, Error> {
    if !DisputeApplies(s, t) then Ok(s)
    else
      var account := s.accounts[t.client];
      var amount := s.depositHistory[t.tx].amount;
      match CheckedSub(account.available, amount)
      case None => Err(Arithmetic("Underflow in dispute available balance"))
      case Some(available) =>
        match CheckedAdd(account.held, amount)
        case None => Err(Arithmetic("Overflow in dispute held balance"))
        case Some(held) =>
          Ok(s.(accounts := s.accounts[t.client := account.(available := available, held := held)],
                disputed := s.disputed + {t.tx}))
  }

  function ApplyResolve(s: Ledger, t: Transaction): Result<Ledger, Error> {
    if !SettleApplies(s, t) then Ok(s)
    else
      var account := s.accounts[t.client];
      var amount := s.depositHistory[t.tx].amount;
      match CheckedAdd(account.available, amount)
      case None => Err(Arithmetic("Overflow in resolve available balance"))
      case Some(available) =>
        match CheckedSub(account.held, amount)
        case None => Err(Arithmetic("Underflow in resolve held balance"))
        case Some(held) =>
          Ok(s.(accounts := s.accounts[t.client := account.(available := available, held := held)],
                disputed := s.disputed - {t.tx}))
  }

  function ApplyChargeback(s: Ledger, t: Transaction): Result<Ledger, Error> {
    if !SettleApplies(s, t) then Ok(s)
    else
      var account := s.accounts[t.client];
      var amount := s.depositHistory[t.tx].amount;
      match CheckedSub(account.total, amount)
      case None => Err(Arithmetic("Underflow in chargeback total balance"))
      case Some(total) =>
        match CheckedSub(account.held, amount)
        case None => Err(Arithmetic("Underflow in chargeback held balance"))
        case Some(held) =>
          Ok(s.(accounts := s.accounts[t.client := account.(held := held, total := total, locked := true)],
                disputed := s.disputed - {t.tx}))
  }

  /** The effect of one transaction: a new state, or the arithmetic error that ends the run. */
  function Step(s: Ledger, t: Transaction): Result<Ledger, Error> {
    match t.txType
    case Deposit => ApplyDeposit(s, t)
    case Withdrawal => ApplyWithdrawal(s, t)
    case Dispute => ApplyDispute(s, t)
    case Resolve => ApplyResolve(s, t)
    case Chargeback => ApplyChargeback(s, t)
  }

  /** Applies the stream in order; the first read error or arithmetic error ends it. */
  function Replay(s: Ledger, events: Events): Result<Ledger, Error>
    decreases |events|
  {
    if events == [] then Ok(s)
    else match events[0]
      case Err(e) => Err(e)
      case Ok(t) =>
        match Step(s, t)
        case Err(e) => Err(e)
        case Ok(next) => Replay(next, events[1..])
  }

  /** The accounts after the whole stream, from nothing. */
  function Process(events: Events): Result<Accounts, Error> {
    match Replay(Initial, events)
    case Err(e) => Err(e)
    case Ok(s) => Ok(s.accounts)
  }

  /** Every account keeps its total equal to available plus held. */
  ghost predicate AllBalanced(accounts: Accounts) {
    forall c :: c in accounts ==> Balanced(accounts[c])
  }

  /** No account has a negative balance. */
  ghost predicate AllNonNegative(accounts: Accounts) {
    forall c :: c in accounts ==> NonNegative(accounts[c])
  }

  /**
    What holds of every reachable state: accounts are balanced, the history
    holds only deposits, filed under their own id, of clients that have an
    account, and only recorded deposits are disputed.
  */
  ghost predicate Consistent(s: Ledger) {
    && AllBalanced(s.accounts)
    && (forall id :: id in s.depositHistory ==>
          && s.depositHistory[id].txType == Deposit
          && s.depositHistory[id].tx == id
          && s.depositHistory[id].client in s.accounts)
    && s.disputed <= s.depositHistory.Keys
  }

  /** A consistent state in which no balance and no recorded deposit is negative. */
  ghost predicate Solvent(s: Ledger) {
    && Consistent(s)
    && AllNonNegative(s.accounts)
    && (forall id :: id in s.depositHistory ==> s.depositHistory[id].amount >= 0)
  }

  /** Every deposit that reads successfully has a non-negative amount. */
  ghost predicate DepositsNonNegative(events: Events) {
    forall i :: 0 <= i < |events| && events[i].Ok? && events[i].value.txType == Deposit ==> events[i].value.amount >= 0
  }

  /** Each rule keeps a consistent state consistent. */
  lemma StepKeepsConsistent(s: Ledger, t: Transaction)
    requires Consistent(s)
    ensures Step(s, t).Ok? ==> Consistent(Step(s, t).value)
  {
    match t.txType
    case Deposit => DepositKeepsConsistent(s, t);
    case Withdrawal => WithdrawalKeepsConsistent(s, t);
    case Dispute => DisputeKeepsConsistent(s, t);
    case Resolve => ResolveKeepsConsistent(s, t);
    case Chargeback => ChargebackKeepsConsistent(s, t);
  }

  /** A deposit credits or opens its client's account with a balanced one and records itself under its own id. */
  lemma DepositKeepsConsistent(s: Ledger, t: Transaction)
    requires Consistent(s) && t.txType == Deposit
    ensures ApplyDeposit(s, t).Ok? ==> Consistent(ApplyDeposit(s, t).value)
  {
  }

  /** A withdrawal only replaces its client's account by a balanced one. */
  lemma WithdrawalKeepsConsistent(s: Ledger, t: Transaction)
    requires Consistent(s) && t.txType == Withdrawal
    ensures ApplyWithdrawal(s, t).Ok? ==> Consistent(ApplyWithdrawal(s, t).value)
  {
  }

  /** A dispute only replaces its client's account by a balanced one and marks a recorded deposit disputed. */
  lemma DisputeKeepsConsistent(s: Ledger, t: Transaction)
    requires Consistent(s) && t.txType == Dispute
    ensures ApplyDispute(s, t).Ok? ==> Consistent(ApplyDispute(s, t).value)
  {
  }

  /** A resolve only replaces its client's account by a balanced one and closes a dispute. */
  lemma ResolveKeepsConsistent(s: Ledger, t: Transaction)
    requires Consistent(s) && t.txType == Resolve
    ensures ApplyResolve(s, t).Ok? ==> Consistent(ApplyResolve(s, t).value)
  {
  }

  /** A chargeback only replaces its client's account by a balanced one and closes a dispute. */
  lemma ChargebackKeepsConsistent(s: Ledger, t: Transaction)
    requires Consistent(s) && t.txType == Chargeback
    ensures ApplyChargeback(s, t).Ok? ==> Consistent(ApplyChargeback(s, t).value)
  {
  }

  /** With non-negative deposits, each rule keeps a solvent state solvent. */
  lemma StepKeepsSolvent(s: Ledger, t: Transaction)
    requires Solvent(s)
    requires t.txType == Deposit ==> t.amount >= 0
    ensures Step(s, t).Ok? ==> Solvent(Step(s, t).value)
  {
    StepKeepsConsistent(s, t);
    if Step(s, t).Ok? {
      var s' := Step(s, t).value;
      forall c | c in s'.accounts ensures NonNegative(s'.accounts[c]) {
        if c != t.client { assert c in s.accounts; }
      }
    }
  }

  /** Consistency holds after any stream that replays without error. */
  lemma {:induction false} ReplayKeepsConsistent(s: Ledger, events: Events)
    requires Consistent(s)
    ensures Replay(s, events).Ok? ==> Consistent(Replay(s, events).value)
    decreases |events|
  {
    if events != [] && events[0].Ok? {
      StepKeepsConsistent(s, events[0].value);
      if Step(s, events[0].value).Ok? {
        ReplayKeepsConsistent(Step(s, events[0].value).value, events[1..]);
      }
    }
  }

  /** With non-negative deposits, solvency holds after any stream that replays without error. */
  lemma {:induction false} ReplayKeepsSolvent(s: Ledger, events: Events)
    requires Solvent(s)
    requires DepositsNonNegative(events)
    ensures Replay(s, events).Ok? ==> Solvent(Replay(s, events).value)
    decreases |events|
  {
    if events != [] && events[0].Ok? {
      StepKeepsSolvent(s, events[0].value);
      if Step(s, events[0].value).Ok? {
        assert DepositsNonNegative(events[1..]) by {
          forall i | 0 <= i < |events[1..]| && events[1..][i].Ok? && events[1..][i].value.txType == Deposit
            ensures events[1..][i].value.amount >= 0
          {
            assert events[1..][i] == events[i + 1];
          }
        }
        ReplayKeepsSolvent(Step(s, events[0].value).value, events[1..]);
      }
    }
  }

  /** The accounts a successful run returns are balanced; with no negative deposit, no balance is negative. */
  lemma ProcessKeepsBalances(events: Events)
    requires Process(events).Ok?
    ensures AllBalanced(Process(events).value)
    ensures DepositsNonNegative(events) ==> AllNonNegative(Process(events).value)
  {
    ReplayKeepsConsistent(Initial, events);
    if DepositsNonNegative(events) {
      ReplayKeepsSolvent(Initial, events);
    }
  }

  /**
    Runs the stream: the first read error is returned as it is; otherwise each
    transaction updates the accounts, the deposit history and the disputed set
    in place, and an arithmetic overflow ends the run with its error. The
    accounts that result are balanced, and have no negative balance when no
    deposit is negative.
  */
  method ProcessTransactions(transactions: Events) returns (r: Result<Accounts, Error>)
    ensures r == Process(transactions)
    ensures r.Ok? ==> AllBalanced(r.value)
    ensures r.Ok? && DepositsNonNegative(transactions) ==> AllNonNegative(r.value)
  {
    var accounts: Accounts := map[];
    var depositHistory: map<TxId, Transaction> := map[];
    var disputedTransactions: set<TxId> := {};
    var i := 0;
    while i < |transactions|
      invariant 0 <= i <= |transactions|
      invariant Replay(Ledger(accounts, depositHistory, disputedTransactions), transactions[i..]) == Replay(Initial, transactions)
    {
      ghost var before := Ledger(accounts, depositHistory, disputedTransactions);
      assert transactions[i..][1..] == transactions[i + 1..];
      if transactions[i].Err? {
        return Err(transactions[i].error);
      }
      var tx := transactions[i].value;
      match tx.txType {
        case Deposit =>
          if tx.client in accounts {
            var account := accounts[tx.client];
            var available := CheckedAdd(account.available, tx.amount);
            if available.None? {
              return Err(Arithmetic("Overflow in deposit available balance"));
            }
            account := account.(available := available.value);
            var total := CheckedAdd(account.total, tx.amount);
            if total.None? {
              return Err(Arithmetic("Overflow in deposit total balance"));
            }
            account := account.(total := total.value);
            accounts := accounts[tx.client := account];
          } else {
            accounts := accounts[tx.client := NewWithBalance(tx.amount)];
          }
          depositHistory := depositHistory[tx.tx := tx];
        case Withdrawal =>
          if tx.client in accounts {
            var account := accounts[tx.client];
            if tx.amount <= account.available {
              var total := CheckedSub(account.total, tx.amount);
              if total.None? {
                return Err(Arithmetic("Underflow in withdrawal total balance"));
              }
              account := account.(total := total.value);
              var available := CheckedSub(account.available, tx.amount);
              if available.None? {
                return Err(Arithmetic("Underflow in withdrawal available balance"));
              }
              account := account.(available := available.value);
              accounts := accounts[tx.client := account];
            }
          }
        case Dispute =>
          if tx.client in accounts {
            var account := accounts[tx.client];
            if tx.tx in depositHistory {
              var disputedTx := depositHistory[tx.tx];
              if disputedTx.client == tx.client && account.available >= disputedTx.amount {
                var available := CheckedSub(account.available, disputedTx.amount);
                if available.None? {
                  return Err(Arithmetic("Underflow in dispute available balance"));
                }
                account := account.(available := available.value);
                var held := CheckedAdd(account.held, disputedTx.amount);
                if held.None? {
                  return Err(Arithmetic("Overflow in dispute held balance"));
                }
                account := account.(held := held.value);
                accounts := accounts[tx.client := account];
                disputedTransactions := disputedTransactions + {tx.tx};
              }
            }
          }
        case Resolve =>
          if tx.client in accounts {
            var account := accounts[tx.client];
            if tx.tx in depositHistory {
              var original := depositHistory[tx.tx];
              if original.client == tx.client && tx.tx in disputedTransactions && account.held >= original.amount {
                var available := CheckedAdd(account.available, original.amount);
                if available.None? {
                  return Err(Arithmetic("Overflow in resolve available balance"));
                }
                account := account.(available := available.value);
                var held := CheckedSub(account.held, original.amount);
                if held.None? {
                  return Err(Arithmetic("Underflow in resolve held balance"));
                }
                account := account.(held := held.value);
                accounts := accounts[tx.client := account];
                disputedTransactions := disputedTransactions - {tx.tx};
              }
            }
          }
        case Chargeback =>
          if tx.client in accounts {
            var account := accounts[tx.client];
            if tx.tx in depositHistory {
              var original := depositHistory[tx.tx];
              if original.client == tx.client && tx.tx in disputedTransactions && account.held >= original.amount {
                var total := CheckedSub(account.total, original.amount);
                if total.None? {
                  return Err(Arithmetic("Underflow in chargeback total balance"));
                }
                account := account.(total := total.value);
                var held := CheckedSub(account.held, original.amount);
                if held.None? {
                  return Err(Arithmetic("Underflow in chargeback held balance"));
                }
                account := account.(held := held.value, locked := true);
                accounts := accounts[tx.client := account];
                disputedTransactions := disputedTransactions - {tx.tx};
              }
            }
          }
      }
      assert Step(before, tx) == Ok(Ledger(accounts, depositHistory, disputedTransactions));
      i := i + 1;
    }
    assert transactions[i..] == [];
    ProcessKeepsBalances(transactions);
    return Ok(accounts);
  }
}
