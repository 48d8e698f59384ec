/** The cash-custody ledger: the two tables and their id counters, and the
    operations that insert, rewrite and delete rows while keeping the
    denormalised account balances up to date. Each method is one call of the
    corresponding function: its statements run under one connection and are
    committed together, and an operation that stops on an error commits
    nothing. */
module CashCustody {
  import opened LedgerTypes
  import opened BalanceEffects
  import opened BalanceFlow
  import opened Queries

  /** The `UNIQUE` constraint on `accounts.name`. */
  ghost predicate UniqueNames(accounts: map<int, Account>) {
    forall i, j :: i in accounts && j in accounts && accounts[i].name == accounts[j].name ==> i == j
  }

  /** Balance updates keep the names, so they keep them unique. */
  lemma UniqueNamesKept(before: map<int, Account>, after: map<int, Account>)
    requires UniqueNames(before)
    requires after.Keys == before.Keys
    requires forall k :: k in before ==> after[k].name == before[k].name
    ensures UniqueNames(after)
  {
  }

  class Ledger {
    /** The `accounts` table, keyed by id. */
    var accounts: map<int, Account>
    /** The `transactions` table, keyed by id. */
    var transactions: map<int, Transaction>
    /** The `sqlite_sequence` entries of the two `AUTOINCREMENT` tables: the
        largest id each has handed out, 0 while there is no entry. The next
        insert takes the next id, so no id is reused until a reset. */
    var lastAccountId: nat
    var lastTransactionId: nat
    /** The balance each live account was opened with. */
    ghost var opening: map<int, real>

    /** What the schema guarantees: ids come from the counters, and no two
        accounts share a name. */
    ghost predicate Valid()
      reads this
    {
      (forall id :: id in accounts ==> 1 <= id <= lastAccountId) &&
      (forall id :: id in transactions ==> 1 <= id <= lastTransactionId) &&
      UniqueNames(accounts)
    }

    /** The balances agree with the transaction history: each live account
        holds its opening balance plus its flow, and every stored transaction
        names only account ids already handed out (so a newly opened account
        starts with no history). */
    ghost predicate Consistent()
      reads this
    {
      Balanced(accounts, opening, transactions) &&
      forall k :: k in transactions ==> RefsAllocated(transactions[k], lastAccountId)
    }

    /** `init_database` on a new store: both tables empty. */
    constructor ()
      ensures Valid() && Consistent()
      ensures accounts == map[] && transactions == map[]
      ensures lastAccountId == 0 && lastTransactionId == 0
    {
      accounts := map[];
      transactions := map[];
      lastAccountId := 0;
      lastTransactionId := 0;
      opening := map[];
    }

    /** `get_accounts`: every account once, in id order, with its name and
        balance. */
    function GetAccounts(): (rows: seq<AccountRow>)
      reads this
      requires Valid()
      ensures forall i :: 0 <= i < |rows| ==> ListsAccount(accounts, rows[i])
      ensures forall i, j :: 0 <= i < j < |rows| ==> rows[i].id < rows[j].id
      ensures forall id :: id in accounts ==> exists i :: 0 <= i < |rows| && rows[i].id == id
    {
      AccountRowsListed(accounts, 1, lastAccountId);
      AccountRowsSorted(accounts, 1, lastAccountId);
      assert forall id :: id in accounts ==> exists i ::
        0 <= i < |AccountRows(accounts, 1, lastAccountId)| &&
        AccountRows(accounts, 1, lastAccountId)[i].id == id
      by {
        forall id | id in accounts
          ensures exists i :: 0 <= i < |AccountRows(accounts, 1, lastAccountId)| &&
                              AccountRows(accounts, 1, lastAccountId)[i].id == id
        {
          AccountRowsComplete(accounts, 1, lastAccountId, id);
        }
      }
      AccountRows(accounts, 1, lastAccountId)
    }

    /** `get_transactions`: every transaction once, in id order, with the
        names of its two accounts resolved by left joins. */
    function GetTransactions(): (rows: seq<TransactionRow>)
      reads this
      requires Valid()
      ensures forall i :: 0 <= i < |rows| ==> ListsTransaction(accounts, transactions, rows[i])
      ensures forall i, j :: 0 <= i < j < |rows| ==> rows[i].id < rows[j].id
      ensures forall id :: id in transactions ==> exists i :: 0 <= i < |rows| && rows[i].id == id
    {
      TransactionRowsListed(accounts, transactions, 1, lastTransactionId);
      TransactionRowsSorted(accounts, transactions, 1, lastTransactionId);
      assert forall id :: id in transactions ==> exists i ::
        0 <= i < |TransactionRows(accounts, transactions, 1, lastTransactionId)| &&
        TransactionRows(accounts, transactions, 1, lastTransactionId)[i].id == id
      by {
        forall id | id in transactions
          ensures exists i :: 0 <= i < |TransactionRows(accounts, transactions, 1, lastTransactionId)| &&
                              TransactionRows(accounts, transactions, 1, lastTransactionId)[i].id == id
        {
          TransactionRowsComplete(accounts, transactions, 1, lastTransactionId, id);
        }
      }
      TransactionRows(accounts, transactions, 1, lastTransactionId)
    }

    /** `add_account`: a name already in use violates the `UNIQUE`
        constraint and nothing changes; otherwise the account is stored under
        the next id, larger than any id handed out before. */
    method AddAccount(name: string, balance: real) returns (r: Result<int>)
      requires Valid()
      modifies this
      ensures Valid()
      ensures transactions == old(transactions) && lastTransactionId == old(lastTransactionId)
      ensures NameTaken(old(accounts), name) ==>
        r == Failure(DuplicateName) && accounts == old(accounts) &&
        lastAccountId == old(lastAccountId) && opening == old(opening)
      ensures !NameTaken(old(accounts), name) ==>
        r == Success(old(lastAccountId) + 1) && lastAccountId == r.value &&
        accounts == old(accounts)[r.value := Account(name, balance)] &&
        opening == old(opening)[r.value := balance]
      ensures r.Success? ==> forall id :: id in old(accounts) ==> id < r.value
      ensures old(Consistent()) ==> Consistent()
    {
      if NameTaken(accounts, name) {
        return Failure(DuplicateName);
      }
      var id := lastAccountId + 1;
      if Consistent() {
        assert forall k :: k in transactions ==> !Mentions(transactions[k], id);
        BalancedAfterOpen(accounts, opening, transactions, id, name, balance);
      }
      accounts := accounts[id := Account(name, balance)];
      opening := opening[id := balance];
      lastAccountId := id;
      r := Success(id);
    }

    /** `add_transaction`: the row is stored under the next id; for DEPOSIT,
        TRANSFER and EXPENSE the source is debited and the destination
        credited, each side only when its column is truthy; any other type
        moves no money. */
    method AddTransaction(t: Transaction) returns (id: int)
      requires Valid()
      modifies this
      ensures Valid()
      ensures id == old(lastTransactionId) + 1 && id !in old(transactions)
      ensures transactions == old(transactions)[id := t] && lastTransactionId == id
      ensures accounts == Recorded(old(accounts), t)
      ensures lastAccountId == old(lastAccountId) && opening == old(opening)
      ensures old(Consistent()) && RefsAllocated(t, lastAccountId) ==> Consistent()
    {
      id := lastTransactionId + 1;
      if Consistent() {
        BalancedAfterRecord(accounts, opening, transactions, id, t);
      }
      transactions := transactions[id := t];
      lastTransactionId := id;
      PostByType(t);
      UniqueNamesKept(old(accounts), accounts);
    }

    /** The balance half of `add_transaction`: the updates of the branch
        matching the type, none when no branch matches. */
    method PostByType(t: Transaction)
      modifies this`accounts
      ensures accounts == Recorded(old(accounts), t)
    {
      if t.kind == "DEPOSIT" {
        Adjust(t.to, t.amount);
        Adjust(t.from, -t.amount);
        DepositOrder(old(accounts), t);
      } else if t.kind == "TRANSFER" {
        PostRow(t);
      } else if t.kind == "EXPENSE" {
        PostRow(t);
      }
    }

    /** Debit the source, then credit the destination, each when present. */
    method PostRow(t: Transaction)
      modifies this`accounts
      ensures accounts == Post(old(accounts), t)
    {
      Adjust(t.from, -t.amount);
      Adjust(t.to, t.amount);
    }

    /** Credit the source back, then debit the destination, each when present. */
    method UnpostRow(t: Transaction)
      modifies this`accounts
      ensures accounts == Unpost(old(accounts), t)
    {
      Adjust(t.from, t.amount);
      Adjust(t.to, -t.amount);
    }

    /** `edit_transaction`: a missing id changes nothing; otherwise the row
        is rewritten, the stored row's updates are reversed and the new row's
        applied, whatever either type is. */
    method EditTransaction(id: int, updated: Transaction) returns (s: Status)
      requires Valid()
      modifies this
      ensures Valid()
      ensures id !in old(transactions) ==> s == Failed(NotFound) && unchanged(this)
      ensures id in old(transactions) ==>
        s == Done && transactions == old(transactions)[id := updated] &&
        accounts == Rebooked(old(accounts), old(transactions)[id], updated)
      ensures lastAccountId == old(lastAccountId) && lastTransactionId == old(lastTransactionId)
      ensures opening == old(opening)
      ensures old(Consistent()) &&
        (id in old(transactions) ==>
          IsKnownType(old(transactions)[id].kind) && IsKnownType(updated.kind) &&
          RefsAllocated(updated, lastAccountId))
        ==> Consistent()
    {
      if id !in transactions {
        return Failed(NotFound);
      }
      var current := transactions[id];
      if Consistent() && IsKnownType(current.kind) && IsKnownType(updated.kind) {
        BalancedAfterRebook(accounts, opening, transactions, id, updated);
      }
      transactions := transactions[id := updated];
      UnpostRow(current);
      PostRow(updated);
      UniqueNamesKept(old(accounts), accounts);
      s := Done;
    }

    /** `delete_transaction`: a missing id changes nothing; otherwise the row
        is removed and its updates reversed. */
    method DeleteTransaction(id: int) returns (s: Status)
      requires Valid()
      modifies this
      ensures Valid()
      ensures id !in old(transactions) ==> s == Failed(NotFound) && unchanged(this)
      ensures id in old(transactions) ==>
        s == Done && transactions == old(transactions) - {id} &&
        accounts == Unpost(old(accounts), old(transactions)[id])
      ensures lastAccountId == old(lastAccountId) && lastTransactionId == old(lastTransactionId)
      ensures opening == old(opening)
      ensures old(Consistent()) &&
        (id in old(transactions) ==> IsKnownType(old(transactions)[id].kind))
        ==> Consistent()
    {
      if id !in transactions {
        return Failed(NotFound);
      }
      var current := transactions[id];
      if Consistent() && IsKnownType(current.kind) {
        BalancedAfterErase(accounts, opening, transactions, id);
      }
      transactions := transactions - {id};
      UnpostRow(current);
      UniqueNamesKept(old(accounts), accounts);
      s := Done;
    }

    /** `delete_account`: a missing id or a nonzero balance changes nothing;
        otherwise exactly that account is removed, and the transactions that
        name it stay as they are. */
    method DeleteAccount(id: int) returns (s: Status)
      requires Valid()
      modifies this
      ensures Valid()
      ensures id !in old(accounts) ==> s == Failed(NotFound) && unchanged(this)
      ensures id in old(accounts) && old(accounts)[id].balance != 0.0 ==>
        s == Failed(NonZeroBalance) && unchanged(this)
      ensures id in old(accounts) && old(accounts)[id].balance == 0.0 ==>
        s == Done && accounts == old(accounts) - {id} && opening == old(opening) - {id} &&
        transactions == old(transactions) &&
        lastAccountId == old(lastAccountId) && lastTransactionId == old(lastTransactionId)
      ensures old(Consistent()) ==> Consistent()
    {
      if id !in accounts {
        return Failed(NotFound);
      }
      if accounts[id].balance != 0.0 {
        return Failed(NonZeroBalance);
      }
      accounts := accounts - {id};
      opening := opening - {id};
      s := Done;
    }

    /** One balance update by `d`, issued only when the account column
        `ref` is truthy. */
    method Adjust(ref: Option<int>, d: real)
      modifies this`accounts
      ensures accounts == Shift(old(accounts), ref, d)
    {
      if Present(ref) {
        accounts := Update(accounts, ref.value, d);
      }
    }

    /** The data part of `reset_application`: both tables emptied and both
        `sqlite_sequence` entries dropped, so ids start again at 1. */
    method Reset()
      modifies this
      ensures Valid() && Consistent()
      ensures accounts == map[] && transactions == map[]
      ensures lastAccountId == 0 && lastTransactionId == 0
    {
      accounts := map[];
      transactions := map[];
      lastAccountId := 0;
      lastTransactionId := 0;
      opening := map[];
    }
  }
}
