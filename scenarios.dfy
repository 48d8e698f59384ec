/** Callers of the ledger that use only its contracts: the round trips the
    balance arithmetic promises, and the two worked sequences of operations
    that describe the ledger's intended behaviour. */
module Scenarios {
  import opened LedgerTypes
  import opened BalanceEffects
  import opened CashCustody

  /** Deleting a known-type transaction right after adding it gives back
      both tables (only the id counter has moved on). */
  method AddThenDelete(ledger: Ledger, t: Transaction)
    requires ledger.Valid()
    requires IsKnownType(t.kind)
    modifies ledger
    ensures ledger.Valid()
    ensures ledger.accounts == old(ledger.accounts)
    ensures ledger.transactions == old(ledger.transactions)
    ensures ledger.lastTransactionId == old(ledger.lastTransactionId) + 1
  {
    var id := ledger.AddTransaction(t);
    var s := ledger.DeleteTransaction(id);
    UnpostRecorded(old(ledger.accounts), t);
    assert old(ledger.transactions)[id := t] - {id} == old(ledger.transactions);
  }

  /** Editing a transaction while keeping its amount and its accounts leaves
      every balance as it was; only that row is rewritten. */
  method EditKeepingAmountAndAccounts(ledger: Ledger, id: int, updated: Transaction)
    requires ledger.Valid()
    requires id in ledger.transactions
    requires updated.amount == ledger.transactions[id].amount
    requires updated.from == ledger.transactions[id].from && updated.to == ledger.transactions[id].to
    modifies ledger
    ensures ledger.Valid()
    ensures ledger.accounts == old(ledger.accounts)
    ensures ledger.transactions == old(ledger.transactions)[id := updated]
  {
    var s := ledger.EditTransaction(id, updated);
    RebookedSame(old(ledger.accounts), old(ledger.transactions)[id], updated);
  }

  /** Safe opens with 1000 and Cash with 0; a transfer of 200 from Safe to
      Cash leaves 800 and 200; editing the amount to 50 leaves 950 and 50;
      deleting the transfer leaves 1000 and 0. */
  method TransferEditDelete() {
    var ledger := new Ledger();
    var safe := ledger.AddAccount("Safe", 1000.0);
    var cash := ledger.AddAccount("Cash", 0.0);
    assert safe == Success(1) && cash == Success(2);

    var transfer := Transaction("2024-01-01", "TRANSFER", "float", 200.0, Some(1), Some(2), None);
    var id := ledger.AddTransaction(transfer);
    assert ledger.accounts[1].balance == 800.0 && ledger.accounts[2].balance == 200.0;

    var s := ledger.EditTransaction(id, transfer.(amount := 50.0));
    assert s == Done;
    assert ledger.accounts[1].balance == 950.0 && ledger.accounts[2].balance == 50.0;

    s := ledger.DeleteTransaction(id);
    assert s == Done;
    assert ledger.accounts[1].balance == 1000.0 && ledger.accounts[2].balance == 0.0;
    assert ledger.Consistent();
  }

  /** An account holding nothing can be deleted; one holding 5 cannot, and
      a second account under a name in use is refused. */
  method DeleteAccountGuards() {
    var ledger := new Ledger();
    var safe := ledger.AddAccount("Safe", 0.0);
    assert safe == Success(1);
    var s := ledger.DeleteAccount(1);
    assert s == Done && ledger.accounts == map[];

    var cash := ledger.AddAccount("Cash", 5.0);
    assert cash == Success(2);
    s := ledger.DeleteAccount(2);
    assert s == Failed(NonZeroBalance) && 2 in ledger.accounts;

    var again := ledger.AddAccount("Cash", 1.0);
    assert NameTaken(map[2 := Account("Cash", 5.0)], "Cash");
    assert again == Failure(DuplicateName);
  }
}
