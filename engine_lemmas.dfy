/**
  Properties of the ledger state machine: what each rule does and when it is
  a no-op, that a resolved or charged-back dispute cannot be settled again,
  that accounts are never removed and locks never lifted, that only deposits
  can overflow a solvent ledger, how a stream composes and where a read error
  stops it, and the worked scenarios of the engine's tests.
*/
module EngineLemmas {
  import opened Wrappers
  import opened Types
  import opened Engine

  // ---------------------------------------------------------------------------
  // The rules one by one
  // ---------------------------------------------------------------------------

  /** A deposit credits both available and total of an existing account, or opens one holding the amount, and records itself. */
  lemma DepositRule(s: Ledger, t: Transaction)
    requires t.txType == Deposit
    ensures t.client !in s.accounts ==>
      Step(s, t) == Ok(Ledger(s.accounts[t.client := NewWithBalance(t.amount)], s.depositHistory[t.tx := t], s.disputed))
    ensures t.client in s.accounts ==>
      var a := s.accounts[t.client];
      if -MaxAmount <= a.available + t.amount <= MaxAmount && -MaxAmount <= a.total + t.amount <= MaxAmount then
        Step(s, t) == Ok(Ledger(
          s.accounts[t.client := a.(available := a.available + t.amount, total := a.total + t.amount)],
          s.depositHistory[t.tx := t], s.disputed))
      else Step(s, t).Err? && Step(s, t).error.Arithmetic?
  {
  }

  /**
    A withdrawal without an account or beyond the available funds changes
    nothing; otherwise it debits both available and total by the amount, or
    ends the run if a balance would leave the decimal range.
  */
  lemma WithdrawalRule(s: Ledger, t: Transaction)
    requires t.txType == Withdrawal
    ensures t.client !in s.accounts ==> Step(s, t) == Ok(s)
    ensures t.client in s.accounts && t.amount > s.accounts[t.client].available ==> Step(s, t) == Ok(s)
    ensures WithdrawalApplies(s, t) ==>
      var a := s.accounts[t.client];
      if -MaxAmount <= a.total - t.amount && a.available - t.amount <= MaxAmount && a.total - t.amount <= MaxAmount then
        Step(s, t) == Ok(s.(accounts := s.accounts[t.client := a.(available := a.available - t.amount, total := a.total - t.amount)]))
      else Step(s, t).Err? && Step(s, t).error.Arithmetic?
  {
  }

  /** A dispute, resolve or chargeback that names no account, no recorded deposit, or another client's deposit changes nothing. */
  lemma BadReferenceIsIgnored(s: Ledger, t: Transaction)
    requires t.txType == Dispute || t.txType == Resolve || t.txType == Chargeback
    requires t.client !in s.accounts || t.tx !in s.depositHistory || s.depositHistory[t.tx].client != t.client
    ensures Step(s, t) == Ok(s)
  {
  }

  /**
    A dispute applies exactly when it names an own deposit whose amount is
    still available (whether the deposit is already disputed does not
    matter). It then moves that amount from available to held, leaving total
    and lock alone, and marks the deposit disputed; or it ends the run if a
    balance would leave the decimal range. Otherwise it changes nothing.
  */
  lemma DisputeRule(s: Ledger, t: Transaction)
    requires t.txType == Dispute
    ensures !DisputeApplies(s, t) ==> Step(s, t) == Ok(s)
    ensures DisputeApplies(s, t) ==>
      var a := s.accounts[t.client];
      var amount := s.depositHistory[t.tx].amount;
      if -MaxAmount <= a.available - amount <= MaxAmount && -MaxAmount <= a.held + amount <= MaxAmount then
        Step(s, t) == Ok(s.(accounts := s.accounts[t.client := a.(available := a.available - amount, held := a.held + amount)],
                            disputed := s.disputed + {t.tx}))
      else Step(s, t).Err? && Step(s, t).error.Arithmetic?
  {
  }

  /**
    A resolve applies exactly when it names an own deposit under dispute whose
    amount is held. It then moves that amount from held back to available,
    leaving total and lock alone, and closes the dispute; or it ends the run
    if a balance would leave the decimal range. Otherwise it changes nothing.
  */
  lemma ResolveRule(s: Ledger, t: Transaction)
    requires t.txType == Resolve
    ensures !SettleApplies(s, t) ==> Step(s, t) == Ok(s)
    ensures SettleApplies(s, t) ==>
      var a := s.accounts[t.client];
      var amount := s.depositHistory[t.tx].amount;
      if -MaxAmount <= a.available + amount <= MaxAmount && -MaxAmount <= a.held - amount <= MaxAmount then
        Step(s, t) == Ok(s.(accounts := s.accounts[t.client := a.(available := a.available + amount, held := a.held - amount)],
                            disputed := s.disputed - {t.tx}))
      else Step(s, t).Err? && Step(s, t).error.Arithmetic?
  {
  }

  /**
    A chargeback applies exactly when a resolve would. It then removes the
    amount from held and total, leaving available alone, locks the account and
    closes the dispute; or it ends the run if a balance would leave the
    decimal range. Otherwise it changes nothing.
  */
  lemma ChargebackRule(s: Ledger, t: Transaction)
    requires t.txType == Chargeback
    ensures !SettleApplies(s, t) ==> Step(s, t) == Ok(s)
    ensures SettleApplies(s, t) ==>
      var a := s.accounts[t.client];
      var amount := s.depositHistory[t.tx].amount;
      if -MaxAmount <= a.total - amount <= MaxAmount && -MaxAmount <= a.held - amount <= MaxAmount then
        Step(s, t) == Ok(s.(accounts := s.accounts[t.client := a.(held := a.held - amount, total := a.total - amount, locked := true)],
                            disputed := s.disputed - {t.tx}))
      else Step(s, t).Err? && Step(s, t).error.Arithmetic?
  {
  }

  /**
    Once a resolve or chargeback has been processed, a second resolve or
    chargeback of the same client and transaction changes nothing: either the
    first one applied and the dispute is closed, or it did not and neither
    does the second.
  */
  lemma SettleIsFinal(s: Ledger, first: Transaction, second: Transaction)
    requires first.txType == Resolve || first.txType == Chargeback
    requires second.txType == Resolve || second.txType == Chargeback
    requires second.client == first.client && second.tx == first.tx
    requires Step(s, first).Ok?
    ensures Step(Step(s, first).value, second) == Ok(Step(s, first).value)
  {
  }

  /**
    In a solvent ledger the rules other than deposit never overflow: their
    guards keep every balance between zero and the total. Only a deposit, and
    a withdrawal of a negative amount, can end the run with an arithmetic error.
  */
  lemma OnlyDepositsOverflow(s: Ledger, t: Transaction)
    requires Solvent(s)
    requires t.txType != Deposit
    requires t.txType == Withdrawal ==> t.amount >= 0
    ensures Step(s, t).Ok?
  {
  }

  // ---------------------------------------------------------------------------
  // Accounts and locks over a stream
  // ---------------------------------------------------------------------------

  /** The clients of the transactions of one kind that read successfully. */
  function ClientsOf(events: Events, kind: TxType): (cs: set<ClientId>)
    ensures forall c :: c in cs ==> exists i :: 0 <= i < |events| && events[i].Ok? && events[i].value.txType == kind && events[i].value.client == c
    decreases |events|
  {
    if events == [] then {}
    else
      var rest := ClientsOf(events[1..], kind);
      assert forall c :: c in rest ==> exists i :: 0 <= i < |events| && events[i].Ok? && events[i].value.txType == kind && events[i].value.client == c by {
        forall c | c in rest ensures exists i :: 0 <= i < |events| && events[i].Ok? && events[i].value.txType == kind && events[i].value.client == c {
          var j :| 0 <= j < |events[1..]| && events[1..][j].Ok? && events[1..][j].value.txType == kind && events[1..][j].value.client == c;
          assert events[j + 1] == events[1..][j];
        }
      }
      if events[0].Ok? && events[0].value.txType == kind then {events[0].value.client} + rest else rest
  }

  /**
    One rule never removes an account or lifts a lock; it opens an account
    only for a deposit's client, and sets a lock only by a chargeback of that
    client; new accounts are unlocked. Recorded deposits are never forgotten.
  */
  lemma StepKeepsAccountsAndLocks(s: Ledger, t: Transaction)
    requires Step(s, t).Ok?
    ensures var s' := Step(s, t).value;
      && s.accounts.Keys <= s'.accounts.Keys
      && s'.accounts.Keys <= s.accounts.Keys + (if t.txType == Deposit then {t.client} else {})
      && (forall c :: c in s.accounts && s.accounts[c].locked ==> s'.accounts[c].locked)
      && (forall c :: c in s'.accounts && s'.accounts[c].locked && !(c in s.accounts && s.accounts[c].locked) ==>
            t.txType == Chargeback && t.client == c)
      && s.depositHistory.Keys <= s'.depositHistory.Keys
  {
  }

  /**
    Over a whole stream: accounts are never removed, a new account belongs to
    the client of some deposit in the stream, a lock once set stays set, and
    a lock is only set on the client of some chargeback in the stream.
  */
  lemma {:induction false} ReplayKeepsAccountsAndLocks(s: Ledger, events: Events)
    requires Replay(s, events).Ok?
    ensures var s' := Replay(s, events).value;
      && s.accounts.Keys <= s'.accounts.Keys
      && s'.accounts.Keys <= s.accounts.Keys + ClientsOf(events, Deposit)
      && (forall c :: c in s.accounts && s.accounts[c].locked ==> s'.accounts[c].locked)
      && (forall c :: c in s'.accounts && s'.accounts[c].locked ==>
            (c in s.accounts && s.accounts[c].locked) || c in ClientsOf(events, Chargeback))
    decreases |events|
  {
    if events != [] {
      var t := events[0].value;
      var s1 := Step(s, t).value;
      StepKeepsAccountsAndLocks(s, t);
      ReplayKeepsAccountsAndLocks(s1, events[1..]);
    }
  }

  // ---------------------------------------------------------------------------
  // The stream: order, read errors
  // ---------------------------------------------------------------------------

  /** Replaying two streams one after the other is replaying their concatenation. */
  lemma {:induction false} ReplayAppend(s: Ledger, first: Events, second: Events)
    ensures Replay(s, first + second) ==
      match Replay(s, first)
      case Err(e) => Err(e)
      case Ok(middle) => Replay(middle, second)
    decreases |first|
  {
    if first == [] {
      assert first + second == second;
    } else {
      assert (first + second)[0] == first[0];
      assert (first + second)[1..] == first[1..] + second;
      if first[0].Ok? && Step(s, first[0].value).Ok? {
        ReplayAppend(Step(s, first[0].value).value, first[1..], second);
      }
    }
  }

  /** The first read error of a stream whose earlier transactions all apply is the outcome of the run. */
  lemma FirstErrorStops(s: Ledger, events: Events, i: nat)
    requires i < |events| && events[i].Err?
    requires Replay(s, events[..i]).Ok?
    ensures Replay(s, events) == Err(events[i].error)
  {
    assert events == events[..i] + events[i..];
    ReplayAppend(s, events[..i], events[i..]);
    assert events[i..][0] == events[i];
  }

  /** A run that succeeds has read every item of the stream successfully. */
  lemma {:induction false} SuccessMeansNoReadError(s: Ledger, events: Events)
    requires Replay(s, events).Ok?
    ensures forall i :: 0 <= i < |events| ==> events[i].Ok?
    decreases |events|
  {
    if events != [] {
      SuccessMeansNoReadError(Step(s, events[0].value).value, events[1..]);
      forall i | 1 <= i < |events| ensures events[i].Ok? {
        assert events[i] == events[1..][i - 1];
      }
    }
  }

  /** Appending one transaction to a stream applies its rule to the accounts the stream left. */
  lemma ProcessOneMore(events: Events, t: Transaction)
    ensures Replay(Initial, events + [Ok(t)]) ==
      match Replay(Initial, events)
      case Err(e) => Err(e)
      case Ok(s) => Step(s, t)
  {
    ReplayAppend(Initial, events, [Ok(t)]);
    if Replay(Initial, events).Ok? {
      var s := Replay(Initial, events).value;
      var last: Events := [Ok(t)];
      assert last[1..] == [];
      match Step(s, t)
      case Err(_) =>
      case Ok(next) => assert Replay(next, []) == Ok(next);
    }
  }

  // ---------------------------------------------------------------------------
  // Worked scenarios (amounts in units of 0.0001: 100000 is 10.0)
  // ---------------------------------------------------------------------------

  function Event(kind: TxType, client: ClientId, tx: TxId, amount: Amount): Result<Transaction, Error> {
    Ok(Transaction(kind, client, tx, amount))
  }

  /** Replaying a stream whose first transaction leads to `next` goes on from `next`. */
  lemma ReplayStep(s: Ledger, t: Transaction, next: Ledger, rest: Events)
    requires Step(s, t) == Ok(next)
    ensures Replay(s, [Ok(t)] + rest) == Replay(next, rest)
  {
  }

  /** A withdrawal beyond what was deposited leaves the deposit untouched. */
  lemma ScenarioInsufficientFunds(c: ClientId, id1: TxId, id2: TxId, d: Amount, w: Amount)
    requires 0 <= d < w
    ensures Process([Event(Deposit, c, id1, d), Event(Withdrawal, c, id2, w)])
         == Ok(map[c := AccountDetails(0, d, 0, d, false)])
  {
    var t1, t2 := Transaction(Deposit, c, id1, d), Transaction(Withdrawal, c, id2, w);
    var s1 := Ledger(map[c := AccountDetails(0, d, 0, d, false)], map[id1 := t1], {});
    var e2: Events := [Ok(t2)];
    ReplayStep(s1, t2, s1, []);
    assert [Ok(t2)] + [] == e2;
    ReplayStep(Initial, t1, s1, e2);
    assert [Event(Deposit, c, id1, d), Event(Withdrawal, c, id2, w)] == [Ok(t1)] + e2;
  }

  /** A deposit, its dispute and its chargeback empty and lock the account and close the dispute. */
  lemma ScenarioChargeback(c: ClientId, id: TxId, d: Amount)
    requires d >= 0
    ensures Replay(Initial, [Event(Deposit, c, id, d), Event(Dispute, c, id, 0), Event(Chargeback, c, id, 0)])
         == Ok(Ledger(map[c := AccountDetails(0, 0, 0, 0, true)], map[id := Transaction(Deposit, c, id, d)], {}))
  {
    var t1, t2, t3 := Transaction(Deposit, c, id, d), Transaction(Dispute, c, id, 0), Transaction(Chargeback, c, id, 0);
    var s1 := Ledger(map[c := AccountDetails(0, d, 0, d, false)], map[id := t1], {});
    var s2 := s1.(accounts := s1.accounts[c := AccountDetails(0, 0, d, d, false)], disputed := {id});
    var s3 := Ledger(map[c := AccountDetails(0, 0, 0, 0, true)], map[id := t1], {});
    var e3: Events := [Ok(t3)];
    var e2 := [Ok(t2)] + e3;
    ReplayStep(s2, t3, s3, []) by {
      assert s2.disputed - {id} == {};
      assert s2.accounts[c := AccountDetails(0, 0, 0, 0, true)] == s3.accounts;
    }
    assert [Ok(t3)] + [] == e3;
    ReplayStep(s1, t2, s2, e3) by {
      assert s1.disputed + {id} == {id};
    }
    ReplayStep(Initial, t1, s1, e2);
    assert [Event(Deposit, c, id, d), Event(Dispute, c, id, 0), Event(Chargeback, c, id, 0)] == [Ok(t1)] + e2;
  }

  /** A resolve of a charged-back deposit changes nothing: the account stays empty and locked. */
  lemma ScenarioResolveAfterChargeback(c: ClientId, id: TxId, d: Amount)
    requires d >= 0
    ensures Process([Event(Deposit, c, id, d), Event(Dispute, c, id, 0), Event(Chargeback, c, id, 0), Event(Resolve, c, id, 0)])
         == Ok(map[c := AccountDetails(0, 0, 0, 0, true)])
  {
    var first: Events := [Event(Deposit, c, id, d), Event(Dispute, c, id, 0), Event(Chargeback, c, id, 0)];
    var t4 := Transaction(Resolve, c, id, 0);
    ScenarioChargeback(c, id, d);
    ProcessOneMore(first, t4);
    var s3 := Replay(Initial, first).value;
    assert Step(s3, t4) == Ok(s3);
    assert first + [Ok(t4)] == [Event(Deposit, c, id, d), Event(Dispute, c, id, 0), Event(Chargeback, c, id, 0), Event(Resolve, c, id, 0)];
  }

  /** Once a prefix of the stream has run to some accounts, the rest of the stream continues from them. */
  lemma ReplayThen(s: Ledger, first: Events, middle: Ledger, second: Events)
    requires Replay(s, first) == Ok(middle)
    ensures Replay(s, first + second) == Replay(middle, second)
  {
    ReplayAppend(s, first, second);
  }

  /** A deposit, its dispute and its resolve leave the deposit available and the account unlocked, with no dispute open. */
  lemma ScenarioResolve(c: ClientId, id: TxId, d: Amount)
    requires d >= 0
    ensures Replay(Initial, [Event(Deposit, c, id, d), Event(Dispute, c, id, 0), Event(Resolve, c, id, 0)])
         == Ok(Ledger(map[c := AccountDetails(0, d, 0, d, false)], map[id := Transaction(Deposit, c, id, d)], {}))
  {
    var t1, t2, t3 := Transaction(Deposit, c, id, d), Transaction(Dispute, c, id, 0), Transaction(Resolve, c, id, 0);
    var s1 := Ledger(map[c := AccountDetails(0, d, 0, d, false)], map[id := t1], {});
    var s2 := s1.(accounts := s1.accounts[c := AccountDetails(0, 0, d, d, false)], disputed := {id});
    var e3: Events := [Ok(t3)];
    var e2 := [Ok(t2)] + e3;
    ReplayStep(s2, t3, s1, []) by {
      assert s2.disputed - {id} == {};
      assert s2.accounts[c := AccountDetails(0, d, 0, d, false)] == s1.accounts;
    }
    assert [Ok(t3)] + [] == e3;
    ReplayStep(s1, t2, s2, e3) by {
      assert s1.disputed + {id} == {id};
    }
    ReplayStep(Initial, t1, s1, e2);
    assert [Event(Deposit, c, id, d), Event(Dispute, c, id, 0), Event(Resolve, c, id, 0)] == [Ok(t1)] + e2;
  }

  /** A chargeback of a resolved deposit changes nothing: the deposit stays available and the account unlocked. */
  lemma ScenarioChargebackAfterResolve(c: ClientId, id: TxId, d: Amount)
    requires d >= 0
    ensures Process([Event(Deposit, c, id, d), Event(Dispute, c, id, 0), Event(Resolve, c, id, 0), Event(Chargeback, c, id, 0)])
         == Ok(map[c := AccountDetails(0, d, 0, d, false)])
  {
    var first: Events := [Event(Deposit, c, id, d), Event(Dispute, c, id, 0), Event(Resolve, c, id, 0)];
    var t4 := Transaction(Chargeback, c, id, 0);
    ScenarioResolve(c, id, d);
    ProcessOneMore(first, t4);
    var s3 := Replay(Initial, first).value;
    assert Step(s3, t4) == Ok(s3);
    assert first + [Ok(t4)] == [Event(Deposit, c, id, d), Event(Dispute, c, id, 0), Event(Resolve, c, id, 0), Event(Chargeback, c, id, 0)];
  }

  /** The accounts after a scenario that involves one unlocked client only. */
  function OneClient(c: ClientId, available: Amount, held: Amount, history: map<TxId, Transaction>, disputed: set<TxId>): Ledger
    requires -MaxAmount <= available + held <= MaxAmount
  {
    Ledger(map[c := AccountDetails(0, available, held, available + held, false)], history, disputed)
  }

  /** The history after two deposits of one client. */
  function TwoDeposits(c: ClientId, id1: TxId, id2: TxId, d1: Amount, d2: Amount): map<TxId, Transaction> {
    map[id1 := Transaction(Deposit, c, id1, d1), id2 := Transaction(Deposit, c, id2, d2)]
  }

  /** Two deposits to one client under different ids add up in one account and are both recorded. */
  lemma ScenarioTwoDeposits(c: ClientId, id1: TxId, id2: TxId, d1: Amount, d2: Amount)
    requires id1 != id2 && d1 >= 0 && d2 >= 0 && d1 + d2 <= MaxAmount
    ensures Replay(Initial, [Event(Deposit, c, id1, d1), Event(Deposit, c, id2, d2)])
         == Ok(OneClient(c, d1 + d2, 0, TwoDeposits(c, id1, id2, d1, d2), {}))
  {
    var t1, t2 := Transaction(Deposit, c, id1, d1), Transaction(Deposit, c, id2, d2);
    var s1 := Ledger(map[c := AccountDetails(0, d1, 0, d1, false)], map[id1 := t1], {});
    var s2 := OneClient(c, d1 + d2, 0, TwoDeposits(c, id1, id2, d1, d2), {});
    var e2: Events := [Ok(t2)];
    ReplayStep(s1, t2, s2, []) by {
      assert s1.accounts[c := s2.accounts[c]] == s2.accounts;
    }
    assert [Ok(t2)] + [] == e2;
    ReplayStep(Initial, t1, s1, e2);
    assert [Event(Deposit, c, id1, d1), Event(Deposit, c, id2, d2)] == [Ok(t1)] + e2;
  }

  /** Disputing two deposits of an account moves both amounts from available to held and opens both disputes. */
  lemma ScenarioDisputeBoth(c: ClientId, id1: TxId, id2: TxId, d1: Amount, d2: Amount)
    requires id1 != id2 && d1 >= 0 && d2 >= 0 && d1 + d2 <= MaxAmount
    ensures Replay(OneClient(c, d1 + d2, 0, TwoDeposits(c, id1, id2, d1, d2), {}),
                   [Event(Dispute, c, id1, 0), Event(Dispute, c, id2, 0)])
         == Ok(OneClient(c, 0, d1 + d2, TwoDeposits(c, id1, id2, d1, d2), {id1, id2}))
  {
    var history := TwoDeposits(c, id1, id2, d1, d2);
    var t3, t4 := Transaction(Dispute, c, id1, 0), Transaction(Dispute, c, id2, 0);
    var s2 := OneClient(c, d1 + d2, 0, history, {});
    var s3 := OneClient(c, d2, d1, history, {id1});
    var s4 := OneClient(c, 0, d1 + d2, history, {id1, id2});
    var e4: Events := [Ok(t4)];
    ReplayStep(s3, t4, s4, []) by {
      assert s3.disputed + {id2} == {id1, id2};
      assert s3.accounts[c := s4.accounts[c]] == s4.accounts;
    }
    assert [Ok(t4)] + [] == e4;
    ReplayStep(s2, t3, s3, e4) by {
      assert s2.disputed + {id1} == {id1};
      assert s2.accounts[c := s3.accounts[c]] == s3.accounts;
    }
    assert [Event(Dispute, c, id1, 0), Event(Dispute, c, id2, 0)] == [Ok(t3)] + e4;
  }

  /** Two deposits, both disputed, the first resolved: only the second stays held. */
  lemma ScenarioPartialResolve(c: ClientId, id1: TxId, id2: TxId, d1: Amount, d2: Amount)
    requires id1 != id2 && d1 >= 0 && d2 >= 0 && d1 + d2 <= MaxAmount
    ensures Process([Event(Deposit, c, id1, d1), Event(Deposit, c, id2, d2), Event(Dispute, c, id1, 0),
                     Event(Dispute, c, id2, 0), Event(Resolve, c, id1, 0)])
         == Ok(map[c := AccountDetails(0, d1, d2, d1 + d2, false)])
  {
    var history := TwoDeposits(c, id1, id2, d1, d2);
    var t5 := Transaction(Resolve, c, id1, 0);
    var s2 := OneClient(c, d1 + d2, 0, history, {});
    var s4 := OneClient(c, 0, d1 + d2, history, {id1, id2});
    var s5 := OneClient(c, d1, d2, history, {id2});
    var deposits: Events := [Event(Deposit, c, id1, d1), Event(Deposit, c, id2, d2)];
    var disputes: Events := [Event(Dispute, c, id1, 0), Event(Dispute, c, id2, 0)];
    var last: Events := [Ok(t5)];
    ReplayStep(s4, t5, s5, []) by {
      assert s4.disputed - {id1} == {id2};
      assert s4.accounts[c := s5.accounts[c]] == s5.accounts;
    }
    assert [Ok(t5)] + [] == last;
    ScenarioDisputeBoth(c, id1, id2, d1, d2);
    ReplayThen(s2, disputes, s4, last);
    ScenarioTwoDeposits(c, id1, id2, d1, d2);
    ReplayThen(Initial, deposits, s2, disputes + last);
    assert [Event(Deposit, c, id1, d1), Event(Deposit, c, id2, d2), Event(Dispute, c, id1, 0),
            Event(Dispute, c, id2, 0), Event(Resolve, c, id1, 0)] == deposits + (disputes + last);
  }

  /** Disputing the same deposit twice holds its amount twice, while the deposit is recorded as disputed once. */
  lemma ScenarioDisputeTwice(c: ClientId, id1: TxId, id2: TxId, d: Amount)
    requires id1 != id2 && d >= 0 && d + d <= MaxAmount
    ensures Replay(OneClient(c, d + d, 0, TwoDeposits(c, id1, id2, d, d), {}),
                   [Event(Dispute, c, id1, 0), Event(Dispute, c, id1, 0)])
         == Ok(OneClient(c, 0, d + d, TwoDeposits(c, id1, id2, d, d), {id1}))
  {
    var history := TwoDeposits(c, id1, id2, d, d);
    var t3 := Transaction(Dispute, c, id1, 0);
    var s2 := OneClient(c, d + d, 0, history, {});
    var s3 := OneClient(c, d, d, history, {id1});
    var s4 := OneClient(c, 0, d + d, history, {id1});
    var e4: Events := [Ok(t3)];
    ReplayStep(s3, t3, s4, []) by {
      assert s3.disputed + {id1} == {id1};
      assert s3.accounts[c := s4.accounts[c]] == s4.accounts;
    }
    assert [Ok(t3)] + [] == e4;
    ReplayStep(s2, t3, s3, e4) by {
      assert s2.disputed + {id1} == {id1};
      assert s2.accounts[c := s3.accounts[c]] == s3.accounts;
    }
    assert [Event(Dispute, c, id1, 0), Event(Dispute, c, id1, 0)] == [Ok(t3)] + e4;
  }

  /**
    After a double dispute, a resolve releases one amount and closes the
    dispute, so a second resolve changes nothing and the other amount stays
    held with no dispute open.
  */
  lemma ScenarioDoubleDispute(c: ClientId, id1: TxId, id2: TxId, d: Amount)
    requires id1 != id2 && d >= 0 && d + d <= MaxAmount
    ensures Replay(Initial, [Event(Deposit, c, id1, d), Event(Deposit, c, id2, d), Event(Dispute, c, id1, 0),
                             Event(Dispute, c, id1, 0), Event(Resolve, c, id1, 0), Event(Resolve, c, id1, 0)])
         == Ok(OneClient(c, d, d, TwoDeposits(c, id1, id2, d, d), {}))
  {
    var history := TwoDeposits(c, id1, id2, d, d);
    var t5 := Transaction(Resolve, c, id1, 0);
    var s2 := OneClient(c, d + d, 0, history, {});
    var s4 := OneClient(c, 0, d + d, history, {id1});
    var s5 := OneClient(c, d, d, history, {});
    var deposits: Events := [Event(Deposit, c, id1, d), Event(Deposit, c, id2, d)];
    var disputes: Events := [Event(Dispute, c, id1, 0), Event(Dispute, c, id1, 0)];
    var e6: Events := [Ok(t5)];
    var resolves := [Ok(t5)] + e6;
    ReplayStep(s5, t5, s5, []);
    assert [Ok(t5)] + [] == e6;
    ReplayStep(s4, t5, s5, e6) by {
      assert s4.disputed - {id1} == {};
      assert s4.accounts[c := s5.accounts[c]] == s5.accounts;
    }
    ScenarioDisputeTwice(c, id1, id2, d);
    ReplayThen(s2, disputes, s4, resolves);
    ScenarioTwoDeposits(c, id1, id2, d, d);
    ReplayThen(Initial, deposits, s2, disputes + resolves);
    assert [Event(Deposit, c, id1, d), Event(Deposit, c, id2, d), Event(Dispute, c, id1, 0),
            Event(Dispute, c, id1, 0), Event(Resolve, c, id1, 0), Event(Resolve, c, id1, 0)]
        == deposits + (disputes + resolves);
  }
}
