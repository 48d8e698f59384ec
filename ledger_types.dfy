/** Rows of the two tables of the cash-custody store, `accounts` and
    `transactions`, and the outcomes of the ledger operations.

    Ids are plain integers, as the `INTEGER PRIMARY KEY AUTOINCREMENT`
    columns are. A transaction's account columns are nullable and are not
    checked against `accounts` (foreign keys are declared but never enforced),
    so a reference is an `Option<int>` that may name no account at all. */
module LedgerTypes {

  datatype Option<T> = None | Some(value: T)

  /** A row of `accounts`: the name is `NOT NULL UNIQUE`, the balance is the
      denormalised running total kept by the transaction operations. */
  datatype Account = Account(name: string, balance: real)

  /** A row of `transactions`, in the column order of the insert:
      date, type, description, amount, from account, to account, file path.
      The type column is free text; only three values move money on insert. */
  datatype Transaction = Transaction(
    date: string,
    kind: string,
    description: string,
    amount: real,
    from: Option<int>,
    to: Option<int>,
    filePath: Option<string>)

  datatype Error = NotFound | DuplicateName | NonZeroBalance

  /** Outcome of an operation that returns nothing on success. */
  datatype Status = Done | Failed(error: Error)

  /** Outcome of an operation that yields a value on success. */
  datatype Result<T> = Success(value: T) | Failure(error: Error)

  /** The three type strings `add_transaction` dispatches on. */
  predicate IsKnownType(kind: string) {
    kind == "DEPOSIT" || kind == "TRANSFER" || kind == "EXPENSE"
  }

  /** Python truthiness of an account-id column (`if from_account_id:`):
      NULL and 0 are both skipped. */
  predicate Present(r: Option<int>) {
    r.Some? && r.value != 0
  }

  /** The guarded side `r` is one whose balance update targets account `id`. */
  predicate Targets(r: Option<int>, id: int) {
    Present(r) && r.value == id
  }

  /** Transaction `t` names account `id` on either side that the balance
      updates would touch. */
  predicate Mentions(t: Transaction, id: int) {
    Targets(t.from, id) || Targets(t.to, id)
  }

  /** Every side of `t` that the balance updates would touch names an id the
      accounts table has already handed out (ids are `1 .. lastAccountId`). */
  predicate RefsAllocated(t: Transaction, lastAccountId: int) {
    (Present(t.from) ==> t.from.value <= lastAccountId) &&
    (Present(t.to) ==> t.to.value <= lastAccountId)
  }

  /** The `UNIQUE` constraint on `accounts.name` would reject `name`. */
  predicate NameTaken(accounts: map<int, Account>, name: string) {
    exists id :: id in accounts && accounts[id].name == name
  }
}
