/** The two read queries, `get_accounts` and `get_transactions`. Both are
    plain table scans without `ORDER BY`; they are modelled as scans in id
    (rowid) order, which is the order SQLite visits a table's rows in. */
module Queries {
  import opened LedgerTypes

  /** One dictionary of `get_accounts`: `{"id", "name", "balance"}`. */
  datatype AccountRow = AccountRow(id: int, name: string, balance: real)

  /** One tuple of `get_transactions`: the transaction's id, date, type,
      description and amount, then the names found by the two left joins
      (`None` is the NULL of a join that finds no account). */
  datatype TransactionRow = TransactionRow(
    id: int,
    date: string,
    kind: string,
    description: string,
    amount: real,
    fromAccount: Option<string>,
    toAccount: Option<string>)

  /** `LEFT JOIN accounts a ON column = a.id`, projected on `a.name`. */
  function AccountName(accounts: map<int, Account>, ref: Option<int>): Option<string> {
    if ref.Some? && ref.value in accounts then Some(accounts[ref.value].name) else None
  }

  /** `name` is what the left join on `ref` yields: the name of the account
      with that id when there is one, NULL when the column is NULL or names
      no account. */
  predicate JoinedName(accounts: map<int, Account>, ref: Option<int>, name: Option<string>) {
    (name.Some? <==> ref.Some? && ref.value in accounts) &&
    (name.Some? ==> name.value == accounts[ref.value].name)
  }

  /** `row` reports the stored account with its id, name and balance. */
  predicate ListsAccount(accounts: map<int, Account>, row: AccountRow) {
    row.id in accounts &&
    row.name == accounts[row.id].name && row.balance == accounts[row.id].balance
  }

  /** `row` reports the stored transaction with its id: its own columns, and
      the joined names of its two accounts. */
  predicate ListsTransaction(accounts: map<int, Account>, transactions: map<int, Transaction>,
                             row: TransactionRow) {
    row.id in transactions &&
    var t := transactions[row.id];
    row.date == t.date && row.kind == t.kind &&
    row.description == t.description && row.amount == t.amount &&
    JoinedName(accounts, t.from, row.fromAccount) &&
    JoinedName(accounts, t.to, row.toAccount)
  }

  /** The scan of `accounts` over the ids `lo .. hi`, in id order. */
  function AccountRows(accounts: map<int, Account>, lo: int, hi: int): seq<AccountRow>
    decreases hi - lo
  {
    if lo > hi then []
    else if lo in accounts then
      [AccountRow(lo, accounts[lo].name, accounts[lo].balance)] + AccountRows(accounts, lo + 1, hi)
    else
      AccountRows(accounts, lo + 1, hi)
  }

  /** The scan of `transactions` over the ids `lo .. hi`, in id order, each
      row joined with the names of its source and destination accounts. */
  function TransactionRows(accounts: map<int, Account>, transactions: map<int, Transaction>,
                           lo: int, hi: int): seq<TransactionRow>
    decreases hi - lo
  {
    if lo > hi then []
    else if lo in transactions then
      var t := transactions[lo];
      [TransactionRow(lo, t.date, t.kind, t.description, t.amount,
                      AccountName(accounts, t.from), AccountName(accounts, t.to))]
      + TransactionRows(accounts, transactions, lo + 1, hi)
    else
      TransactionRows(accounts, transactions, lo + 1, hi)
  }

  /** One step of the account scan: the row for `lo`, if stored, then the rest. */
  lemma AccountRowsStep(accounts: map<int, Account>, lo: int, hi: int)
    requires lo <= hi
    ensures var rows := AccountRows(accounts, lo, hi);
      var rest := AccountRows(accounts, lo + 1, hi);
      (lo in accounts ==>
        |rows| == |rest| + 1 && rows[0] == AccountRow(lo, accounts[lo].name, accounts[lo].balance) &&
        forall i :: 0 <= i < |rest| ==> rows[i + 1] == rest[i]) &&
      (lo !in accounts ==> rows == rest)
  {
  }

  /** One step of the transaction scan: the row for `lo`, if stored, then the rest. */
  lemma TransactionRowsStep(accounts: map<int, Account>, transactions: map<int, Transaction>,
                            lo: int, hi: int)
    requires lo <= hi
    ensures var rows := TransactionRows(accounts, transactions, lo, hi);
      var rest := TransactionRows(accounts, transactions, lo + 1, hi);
      (lo in transactions ==>
        |rows| == |rest| + 1 && rows[0].id == lo &&
        ListsTransaction(accounts, transactions, rows[0]) &&
        forall i :: 0 <= i < |rest| ==> rows[i + 1] == rest[i]) &&
      (lo !in transactions ==> rows == rest)
  {
  }

  /** Every row of the account scan reports a stored account in range. */
  lemma {:induction false} AccountRowsListed(accounts: map<int, Account>, lo: int, hi: int)
    ensures forall i :: 0 <= i < |AccountRows(accounts, lo, hi)| ==>
      lo <= AccountRows(accounts, lo, hi)[i].id <= hi &&
      ListsAccount(accounts, AccountRows(accounts, lo, hi)[i])
    decreases hi - lo
  {
    if lo <= hi {
      AccountRowsListed(accounts, lo + 1, hi);
      AccountRowsStep(accounts, lo, hi);
    }
  }

  /** The account scan reports each id at most once, in increasing order. */
  lemma {:induction false} AccountRowsSorted(accounts: map<int, Account>, lo: int, hi: int)
    ensures forall i, j :: 0 <= i < j < |AccountRows(accounts, lo, hi)| ==>
      AccountRows(accounts, lo, hi)[i].id < AccountRows(accounts, lo, hi)[j].id
    decreases hi - lo
  {
    if lo <= hi {
      AccountRowsListed(accounts, lo + 1, hi);
      AccountRowsSorted(accounts, lo + 1, hi);
      AccountRowsStep(accounts, lo, hi);
    }
  }

  /** Every stored account in range appears in the account scan. */
  lemma {:induction false} AccountRowsComplete(accounts: map<int, Account>, lo: int, hi: int, id: int)
    requires id in accounts && lo <= id <= hi
    ensures exists i :: 0 <= i < |AccountRows(accounts, lo, hi)| && AccountRows(accounts, lo, hi)[i].id == id
    decreases hi - lo
  {
    var rows := AccountRows(accounts, lo, hi);
    AccountRowsStep(accounts, lo, hi);
    if id == lo {
      assert rows[0].id == id;
    } else {
      AccountRowsComplete(accounts, lo + 1, hi, id);
      var rest := AccountRows(accounts, lo + 1, hi);
      var i :| 0 <= i < |rest| && rest[i].id == id;
      var k := if lo in accounts then i + 1 else i;
      assert rows[k] == rest[i];
    }
  }

  /** Every row of the transaction scan reports a stored transaction in
      range, with the names the two left joins find. */
  lemma {:induction false} TransactionRowsListed(accounts: map<int, Account>,
                                                 transactions: map<int, Transaction>, lo: int, hi: int)
    ensures forall i :: 0 <= i < |TransactionRows(accounts, transactions, lo, hi)| ==>
      lo <= TransactionRows(accounts, transactions, lo, hi)[i].id <= hi &&
      ListsTransaction(accounts, transactions, TransactionRows(accounts, transactions, lo, hi)[i])
    decreases hi - lo
  {
    if lo <= hi {
      TransactionRowsListed(accounts, transactions, lo + 1, hi);
      TransactionRowsStep(accounts, transactions, lo, hi);
    }
  }

  /** The transaction scan reports each id at most once, in increasing order. */
  lemma {:induction false} TransactionRowsSorted(accounts: map<int, Account>,
                                                 transactions: map<int, Transaction>, lo: int, hi: int)
    ensures forall i, j :: 0 <= i < j < |TransactionRows(accounts, transactions, lo, hi)| ==>
      TransactionRows(accounts, transactions, lo, hi)[i].id
        < TransactionRows(accounts, transactions, lo, hi)[j].id
    decreases hi - lo
  {
    if lo <= hi {
      TransactionRowsListed(accounts, transactions, lo + 1, hi);
      TransactionRowsSorted(accounts, transactions, lo + 1, hi);
      TransactionRowsStep(accounts, transactions, lo, hi);
    }
  }

  /** Every stored transaction in range appears in the transaction scan. */
  lemma {:induction false} TransactionRowsComplete(accounts: map<int, Account>,
                                                   transactions: map<int, Transaction>,
                                                   lo: int, hi: int, id: int)
    requires id in transactions && lo <= id <= hi
    ensures exists i :: 0 <= i < |TransactionRows(accounts, transactions, lo, hi)| &&
                        TransactionRows(accounts, transactions, lo, hi)[i].id == id
    decreases hi - lo
  {
    var rows := TransactionRows(accounts, transactions, lo, hi);
    TransactionRowsStep(accounts, transactions, lo, hi);
    if id == lo {
      assert rows[0].id == id;
    } else {
      TransactionRowsComplete(accounts, transactions, lo + 1, hi, id);
      var rest := TransactionRows(accounts, transactions, lo + 1, hi);
      var i :| 0 <= i < |rest| && rest[i].id == id;
      var k := if lo in transactions then i + 1 else i;
      assert rows[k] == rest[i];
    }
  }
}
