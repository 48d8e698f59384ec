# Cash-custody ledger, modelled in Dafny

This project models the ledger core of a single-user cash-custody application. The application keeps two SQLite tables:

- `accounts`: an id, a unique name and a balance.
- `transactions`: an id, a date, a type, a description, an amount, an optional source account, an optional destination account and an optional file path.

Account balances are denormalised. Every insert, edit and delete of a transaction updates the balances of the accounts it names, with statements of the form `UPDATE accounts SET balance = balance ± amount WHERE id = ?`. The model is a `Ledger` class (`ledger.dfy`):

- Each table is a `map` from id to row.
- Each table has a counter that stands for its `sqlite_sequence` entry. Ids come from `AUTOINCREMENT`, so they are never reused until a reset.
- A ghost map records each live account's opening balance.

The pure parts live in modules of their own:

- `ledger_types.dfy`: the rows and the operation outcomes.
- `balance_effects.dfy`: the balance arithmetic of one statement and of each operation.
- `balance_flow.dfy`: the net amount the stored transactions move into an account, and the balance invariant.
- `queries.dfy`: the two read queries, as table scans.
- `scenarios.dfy`: callers that use only the contracts.

Behaviours of the code that the model keeps:

- The three types DEPOSIT, TRANSFER and EXPENSE use the same arithmetic. The source is debited and the destination credited.
- Any other type string stores the row but moves no money.
- A side is skipped when its column is falsy. That means NULL, and also 0, because Python's `if from_account_id:` treats 0 as false.
- A side that names no stored account affects zero rows. Foreign keys are never switched on.
- `edit_transaction` and `delete_transaction` reverse a row's updates whatever its type.
- Amounts are exact `real` numbers. Nothing is validated, so zero and negative amounts are accepted.

The central property is `Ledger.Consistent()`. It says that each live account holds its opening balance plus the amounts of the stored DEPOSIT, TRANSFER and EXPENSE transactions paying into it, minus those paying out of it. It also says that every stored transaction names only account ids already handed out.

- Every operation preserves it under the conditions stated in its contract.
- `add_transaction` preserves it whatever the type.
- `edit_transaction` and `delete_transaction` preserve it when the types involved are known ones. For an unknown old type they reverse updates that were never applied, as `UnpostUnknownTypeDrifts` shows. An edit to an unknown new type applies updates that the invariant's flow does not count, so the new type must be known as well.
- A reset re-establishes it.

Two behaviours of the code worth knowing:

- Recording a transaction never fails for an unknown account id. The row is stored and that side's update affects zero rows.
- A transaction whose account was deleted is listed with a NULL name (`None`), not an empty string.

## Model

| member | source | states |
|---|---|---|
| `BalanceEffects.Update` | streamlit-Cash-Custody-app.py:100 | one `UPDATE … balance = balance + d WHERE id = ?`: only that account's balance moves by `d`; ids and names stay; a missing id changes nothing |
| `BalanceEffects.Shift` | streamlit-Cash-Custody-app.py:99-100 | the update guarded by `if ref:`: every balance moves by `d` exactly when the side targets it, otherwise nothing changes |
| `BalanceEffects.Post` | streamlit-Cash-Custody-app.py:104-107 | debit source then credit destination: each account's balance moves by +amount as destination and −amount as source; ids and names unchanged |
| `BalanceEffects.Unpost` | streamlit-Cash-Custody-app.py:182-185 | the reversing updates: each account's balance moves by the negation of the row's effect |
| `BalanceEffects.Recorded` | streamlit-Cash-Custody-app.py:98-112 | the accounts after `add_transaction`: the effect for DEPOSIT, TRANSFER and EXPENSE, and the table unchanged for any other type |
| `BalanceEffects.Rebooked` | streamlit-Cash-Custody-app.py:147-155 | the accounts after an edit: every balance changes by the new row's effect minus the old row's, whatever the types |
| `BalanceEffects.DepositOrder` | streamlit-Cash-Custody-app.py:98-102 | DEPOSIT's destination-first order gives the same table as the source-first order of TRANSFER and EXPENSE |
| `BalanceEffects.UnpostRecorded` | streamlit-Cash-Custody-app.py:182-185 | reversing a known-type row right after recording it restores the account table exactly |
| `BalanceEffects.RebookedSame` | streamlit-Cash-Custody-app.py:147-155 | an edit that keeps amount, source and destination leaves every balance unchanged |
| `BalanceEffects.UnpostUnknownTypeDrifts` | streamlit-Cash-Custody-app.py:182-185 | for a type outside the three, record-then-reverse does not restore the balance: 10 becomes 15 |
| `BalanceFlow.BalancedAfterRecord` | streamlit-Cash-Custody-app.py:87-112 | inserting a row under a fresh id and applying its recorded effect keeps every balance equal to opening + flow |
| `BalanceFlow.BalancedAfterRebook` | streamlit-Cash-Custody-app.py:140-155 | rewriting a row and rebooking its deltas keeps the balances equal to opening + flow when the old and new types are known |
| `BalanceFlow.BalancedAfterErase` | streamlit-Cash-Custody-app.py:179-185 | deleting a known-type row and reversing its deltas keeps the balances equal to opening + flow |
| `BalanceFlow.BalancedAfterOpen` | streamlit-Cash-Custody-app.py:73-78 | opening an account under an id no transaction names keeps the invariant, with its flow zero |
| `BalanceFlow.FlowRemove` | streamlit-Cash-Custody-app.py:179 | the flow into an account splits as any one row's effect plus the flow of the other rows |
| `BalanceFlow.FlowUnmentioned` | streamlit-Cash-Custody-app.py:26 | an id that no stored transaction names has zero flow (why fresh `AUTOINCREMENT` ids matter) |
| `Queries.AccountRowsListed` | streamlit-Cash-Custody-app.py:52-55 | every row of the account scan is a stored account in range, with its id, name and balance |
| `Queries.AccountRowsSorted` | streamlit-Cash-Custody-app.py:52-55 | the account scan lists ids in strictly increasing order, so no account appears twice |
| `Queries.AccountRowsComplete` | streamlit-Cash-Custody-app.py:52-55 | every stored account in range appears in the account scan |
| `Queries.TransactionRowsListed` | streamlit-Cash-Custody-app.py:61-66 | every row of the transaction scan is a stored transaction with its own columns and the left-joined names, NULL when no account matches |
| `Queries.TransactionRowsSorted` | streamlit-Cash-Custody-app.py:61-66 | the transaction scan lists ids in strictly increasing order |
| `Queries.TransactionRowsComplete` | streamlit-Cash-Custody-app.py:61-66 | every stored transaction in range appears in the transaction scan |
| `CashCustody.Ledger.constructor` | streamlit-Cash-Custody-app.py:21-46 | a new store: both tables empty, both counters at 0, schema and balance invariants established |
| `CashCustody.Ledger.GetAccounts` | streamlit-Cash-Custody-app.py:49-55 | every account exactly once, in id order, with its stored name and balance |
| `CashCustody.Ledger.GetTransactions` | streamlit-Cash-Custody-app.py:58-70 | every transaction exactly once, in id order, with the names of its accounts resolved by left join |
| `CashCustody.Ledger.AddAccount` | streamlit-Cash-Custody-app.py:73-78 | a taken name fails with `DuplicateName` and changes nothing; otherwise the account is stored under the next id, larger than every earlier id, with the given balance; both invariants kept |
| `CashCustody.Ledger.AddTransaction` | streamlit-Cash-Custody-app.py:81-115 | the row is stored under a fresh next id, the accounts become `Recorded(old accounts, t)`; the balance invariant is kept when `t` names only allocated ids |
| `CashCustody.Ledger.PostByType` | streamlit-Cash-Custody-app.py:98-112 | the type dispatch of `add_transaction` yields `Recorded(old accounts, t)` |
| `CashCustody.Ledger.PostRow` | streamlit-Cash-Custody-app.py:104-107 | the two guarded forward updates yield `Post(old accounts, t)` |
| `CashCustody.Ledger.UnpostRow` | streamlit-Cash-Custody-app.py:182-185 | the two guarded reversing updates yield `Unpost(old accounts, t)` |
| `CashCustody.Ledger.Adjust` | streamlit-Cash-Custody-app.py:99-100 | one guarded update yields `Shift(old accounts, ref, d)` |
| `CashCustody.Ledger.EditTransaction` | streamlit-Cash-Custody-app.py:118-158 | a missing id fails with `NotFound` and changes nothing; otherwise only that row is rewritten and the accounts become `Rebooked(old accounts, old row, new row)`; invariant kept when both types are known and the new row names allocated ids |
| `CashCustody.Ledger.DeleteTransaction` | streamlit-Cash-Custody-app.py:161-188 | a missing id fails with `NotFound` and changes nothing; otherwise exactly that row is removed and the accounts become `Unpost(old accounts, row)`; invariant kept when its type is known |
| `CashCustody.Ledger.DeleteAccount` | streamlit-Cash-Custody-app.py:191-214 | a missing id fails with `NotFound` and a nonzero balance with `NonZeroBalance`, both changing nothing; otherwise exactly that account is removed and every transaction, including those naming it, is kept |
| `CashCustody.Ledger.Reset` | streamlit-Cash-Custody-app.py:241-244 | both tables empty and both counters back to 0, so ids restart at 1; both invariants hold |
| `Scenarios.AddThenDelete` | streamlit-Cash-Custody-app.py:161-188 | deleting a known-type transaction right after adding it restores both tables exactly |
| `Scenarios.EditKeepingAmountAndAccounts` | streamlit-Cash-Custody-app.py:147-155 | editing with the same amount and accounts leaves every balance unchanged and rewrites only that row |

`Scenarios.TransferEditDelete` and `Scenarios.DeleteAccountGuards` are two worked sequences with no contract of their own. The first transfers 200 from Safe (1000) to Cash (0), edits the amount to 50, then deletes the transfer. The second deletes a zero-balance account, is refused deleting an account holding 5, and is refused a duplicate name. The verifier proves each step's balances and outcomes in both.

## Left out

- Streamlit rendering, forms, placeholders, sorting of the displayed tables, and the session flags `confirm_reset`, `edit_mode` and `transaction_to_edit` are left out. They are presentation only. For the same reason, the two-step confirmation in front of a reset is not modelled; `Ledger.Reset` is the clearing itself.
- Writing uploaded files to `./uploads/`, creating directories and the Excel export are left out. They are file I/O. The file path is kept as an opaque column.
- Connection open/commit/close and the table DDL are left out. The constructor stands for `init_database` on a new, empty store. Reopening a store that already holds data is not modelled.
- `REAL` columns are IEEE doubles. The model uses exact `real`, so rounding is not modelled. Exact arithmetic is also what makes DEPOSIT's update order irrelevant (`DepositOrder`).
- Errors that the code shows with `st.error` and then returns from, and the `IntegrityError` that a duplicate name raises, become `Status` and `Result` values. Neither error path commits anything, so the model leaves the state unchanged.
- `add_account` and `add_transaction` return nothing. `Ledger.AddAccount` returns `Success(id)` and `Ledger.AddTransaction` returns the new id, so that contracts can name the row each one inserts.
- `NOT NULL` violations on `date`, `type` and `amount` cannot be expressed, because those fields are not optional in the model. `description` is a plain string, as every caller supplies one.
- Ids are unbounded integers. SQLite's 64-bit rowid limit, and the `SQLITE_FULL` error at that limit, are not modelled.
- `AUTOINCREMENT` takes the larger of the stored sequence value and the table's largest rowid. The model assumes every insert goes through the operations above, so these are the same, and it keeps only the sequence value.
- Both listing queries have no `ORDER BY`. The model returns rows in rowid order, the order in which SQLite scans a plain table.
