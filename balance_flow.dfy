/** The consistency the denormalised balances are meant to keep: every live
    account holds its opening balance plus the amounts of the stored
    transactions paying into it, minus those paying out of it, counting the
    transactions whose type `add_transaction` acts on. */
module BalanceFlow {
  import opened LedgerTypes
  import opened BalanceEffects

  /** A non-empty table has a row. */
  lemma HasRow(transactions: map<int, Transaction>)
    requires transactions != map[]
    ensures exists k :: k in transactions
  {
    if forall k :: k !in transactions { assert false; }
  }

  /** Net amount the stored transactions move into account `id`. */
  ghost function Flow(transactions: map<int, Transaction>, id: int): real
    decreases |transactions|
  {
    if transactions == map[] then 0.0
    else
      HasRow(transactions);
      var k :| k in transactions;
      RecordedEffect(transactions[k], id) + Flow(transactions - {k}, id)
  }

  /** Any one row can be split off the sum, not only the one `Flow` picks. */
  lemma {:induction false} FlowRemove(transactions: map<int, Transaction>, k: int, id: int)
    requires k in transactions
    ensures Flow(transactions, id) == RecordedEffect(transactions[k], id) + Flow(transactions - {k}, id)
    decreases |transactions|
  {
    var j :| j in transactions &&
      Flow(transactions, id) == RecordedEffect(transactions[j], id) + Flow(transactions - {j}, id);
    if j != k {
      FlowRemove(transactions - {j}, k, id);
      assert transactions - {j} - {k} == transactions - {k} - {j};
      FlowRemove(transactions - {k}, j, id);
    }
  }

  /** Inserting a row under a fresh id adds its recorded effect. */
  lemma FlowInsert(transactions: map<int, Transaction>, k: int, t: Transaction, id: int)
    requires k !in transactions
    ensures Flow(transactions[k := t], id) == Flow(transactions, id) + RecordedEffect(t, id)
  {
    FlowRemove(transactions[k := t], k, id);
    assert transactions[k := t] - {k} == transactions;
  }

  /** Rewriting a row swaps its old recorded effect for the new one. */
  lemma FlowReplace(transactions: map<int, Transaction>, k: int, t: Transaction, id: int)
    requires k in transactions
    ensures Flow(transactions[k := t], id)
         == Flow(transactions, id) - RecordedEffect(transactions[k], id) + RecordedEffect(t, id)
  {
    FlowRemove(transactions, k, id);
    FlowRemove(transactions[k := t], k, id);
    assert transactions[k := t] - {k} == transactions - {k};
  }

  /** An account no stored transaction names has no flow. */
  lemma {:induction false} FlowUnmentioned(transactions: map<int, Transaction>, id: int)
    requires forall k :: k in transactions ==> !Mentions(transactions[k], id)
    ensures Flow(transactions, id) == 0.0
    decreases |transactions|
  {
    if transactions != map[] {
      HasRow(transactions);
      var k :| k in transactions;
      FlowRemove(transactions, k, id);
      FlowUnmentioned(transactions - {k}, id);
    }
  }

  /** Each live account's balance is its opening balance plus its flow. */
  ghost predicate Balanced(accounts: map<int, Account>, opening: map<int, real>,
                           transactions: map<int, Transaction>)
  {
    accounts.Keys == opening.Keys &&
    forall id :: id in accounts ==> accounts[id].balance == opening[id] + Flow(transactions, id)
  }

  /** `add_transaction` keeps the balances consistent, whatever the type. */
  lemma BalancedAfterRecord(accounts: map<int, Account>, opening: map<int, real>,
                            transactions: map<int, Transaction>, k: int, t: Transaction)
    requires Balanced(accounts, opening, transactions)
    requires k !in transactions
    ensures Balanced(Recorded(accounts, t), opening, transactions[k := t])
  {
    forall id | id in accounts
      ensures Recorded(accounts, t)[id].balance == opening[id] + Flow(transactions[k := t], id)
    {
      FlowInsert(transactions, k, t, id);
    }
  }

  /** `edit_transaction` keeps the balances consistent when both the stored
      and the new type are known ones. */
  lemma BalancedAfterRebook(accounts: map<int, Account>, opening: map<int, real>,
                            transactions: map<int, Transaction>, k: int, t: Transaction)
    requires Balanced(accounts, opening, transactions)
    requires k in transactions
    requires IsKnownType(transactions[k].kind) && IsKnownType(t.kind)
    ensures Balanced(Rebooked(accounts, transactions[k], t), opening, transactions[k := t])
  {
    forall id | id in accounts
      ensures Rebooked(accounts, transactions[k], t)[id].balance
           == opening[id] + Flow(transactions[k := t], id)
    {
      FlowReplace(transactions, k, t, id);
    }
  }

  /** `delete_transaction` keeps the balances consistent when the stored
      type is a known one. */
  lemma BalancedAfterErase(accounts: map<int, Account>, opening: map<int, real>,
                           transactions: map<int, Transaction>, k: int)
    requires Balanced(accounts, opening, transactions)
    requires k in transactions
    requires IsKnownType(transactions[k].kind)
    ensures Balanced(Unpost(accounts, transactions[k]), opening, transactions - {k})
  {
    forall id | id in accounts
      ensures Unpost(accounts, transactions[k])[id].balance == opening[id] + Flow(transactions - {k}, id)
    {
      FlowRemove(transactions, k, id);
    }
  }

  /** `add_account` keeps the balances consistent when the new id is one no
      stored transaction names. */
  lemma BalancedAfterOpen(accounts: map<int, Account>, opening: map<int, real>,
                          transactions: map<int, Transaction>, id: int, name: string, balance: real)
    requires Balanced(accounts, opening, transactions)
    requires forall k :: k in transactions ==> !Mentions(transactions[k], id)
    ensures Balanced(accounts[id := Account(name, balance)], opening[id := balance], transactions)
  {
    FlowUnmentioned(transactions, id);
  }
}
