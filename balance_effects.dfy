/** The balance arithmetic of the ledger operations: a single
    `UPDATE accounts SET balance = balance ± ? WHERE id = ?`, the truthiness
    guard in front of it, and the three groups of updates that
    `add_transaction`, `edit_transaction` and `delete_transaction` issue. */
module BalanceEffects {
  import opened LedgerTypes

  /** `UPDATE accounts SET balance = balance + d WHERE id = id`: changes the
      one row with that id, and affects zero rows when there is none. */
  function Update(accounts: map<int, Account>, id: int, d: real): (r: map<int, Account>)
    ensures r.Keys == accounts.Keys
    ensures forall k :: k in accounts && k != id ==> r[k] == accounts[k]
    ensures id in accounts ==> r[id] == Account(accounts[id].name, accounts[id].balance + d)
  {
    if id in accounts then accounts[id := accounts[id].(balance := accounts[id].balance + d)]
    else accounts
  }

  /** `if ref: UPDATE …`: the update, issued only when the account column is
      truthy. Every balance moves by `d` exactly when the side targets it. */
  function Shift(accounts: map<int, Account>, ref: Option<int>, d: real): (r: map<int, Account>)
    ensures r.Keys == accounts.Keys
    ensures forall k :: k in accounts ==>
      r[k].name == accounts[k].name &&
      r[k].balance == accounts[k].balance + (if Targets(ref, k) then d else 0.0)
  {
    if Present(ref) then Update(accounts, ref.value, d) else accounts
  }

  /** Signed effect of `t` on account `id`: `+amount` when it is the
      destination, `-amount` when it is the source (both when it is both). */
  function Effect(t: Transaction, id: int): real {
    (if Targets(t.to, id) then t.amount else 0.0) - (if Targets(t.from, id) then t.amount else 0.0)
  }

  /** The effect `add_transaction` gives `t`: only the three known types move money. */
  function RecordedEffect(t: Transaction, id: int): real {
    if IsKnownType(t.kind) then Effect(t, id) else 0.0
  }

  /** The forward updates: source debited, then destination credited (the
      order of TRANSFER, EXPENSE and the second half of an edit). */
  function Post(accounts: map<int, Account>, t: Transaction): (r: map<int, Account>)
    ensures r.Keys == accounts.Keys
    ensures forall k :: k in accounts ==>
      r[k].name == accounts[k].name && r[k].balance == accounts[k].balance + Effect(t, k)
  {
    Shift(Shift(accounts, t.from, -t.amount), t.to, t.amount)
  }

  /** The reversing updates of edit and delete: source credited back, then
      destination debited. */
  function Unpost(accounts: map<int, Account>, t: Transaction): (r: map<int, Account>)
    ensures r.Keys == accounts.Keys
    ensures forall k :: k in accounts ==>
      r[k].name == accounts[k].name && r[k].balance == accounts[k].balance - Effect(t, k)
  {
    Shift(Shift(accounts, t.from, t.amount), t.to, -t.amount)
  }

  /** What `add_transaction` does to the accounts: the forward updates for
      DEPOSIT, TRANSFER and EXPENSE, nothing for any other type string. */
  function Recorded(accounts: map<int, Account>, t: Transaction): (r: map<int, Account>)
    ensures r.Keys == accounts.Keys
    ensures forall k :: k in accounts ==>
      r[k].name == accounts[k].name && r[k].balance == accounts[k].balance + RecordedEffect(t, k)
    ensures !IsKnownType(t.kind) ==> r == accounts
  {
    if IsKnownType(t.kind) then Post(accounts, t) else accounts
  }

  /** What `edit_transaction` does to the accounts: reverse the stored row's
      updates, then apply the new row's, whatever either type is. The net
      change of every account is the new effect minus the old one. */
  function Rebooked(accounts: map<int, Account>, current: Transaction, updated: Transaction): (r: map<int, Account>)
    ensures r.Keys == accounts.Keys
    ensures forall k :: k in accounts ==>
      r[k].name == accounts[k].name &&
      r[k].balance == accounts[k].balance + Effect(updated, k) - Effect(current, k)
  {
    Post(Unpost(accounts, current), updated)
  }

  /** Two account tables with the same ids, names and balances are equal. */
  lemma SameRows(a: map<int, Account>, b: map<int, Account>)
    requires a.Keys == b.Keys
    requires forall k :: k in a ==> a[k].name == b[k].name && a[k].balance == b[k].balance
    ensures a == b
  {
    forall k | k in a ensures a[k] == b[k] {
      assert a[k] == Account(a[k].name, a[k].balance);
    }
  }

  /** DEPOSIT credits the destination before debiting the source; with exact
      arithmetic this is the same table as the TRANSFER/EXPENSE order. */
  lemma DepositOrder(accounts: map<int, Account>, t: Transaction)
    ensures Shift(Shift(accounts, t.to, t.amount), t.from, -t.amount) == Post(accounts, t)
  {
    SameRows(Shift(Shift(accounts, t.to, t.amount), t.from, -t.amount), Post(accounts, t));
  }

  /** Deleting a row right after recording it with a known type gives back
      the account table exactly. */
  lemma UnpostRecorded(accounts: map<int, Account>, t: Transaction)
    requires IsKnownType(t.kind)
    ensures Unpost(Recorded(accounts, t), t) == accounts
  {
    SameRows(Unpost(Recorded(accounts, t), t), accounts);
  }

  /** Editing a row without changing its amount or its accounts leaves
      every balance as it was. */
  lemma RebookedSame(accounts: map<int, Account>, current: Transaction, updated: Transaction)
    requires updated.amount == current.amount
    requires updated.from == current.from && updated.to == current.to
    ensures Rebooked(accounts, current, updated) == accounts
  {
    SameRows(Rebooked(accounts, current, updated), accounts);
  }

  /** For a type other than the three, `add_transaction` moves nothing but
      `delete_transaction` still reverses the row: the pair does not restore
      the balance. */
  lemma UnpostUnknownTypeDrifts()
    ensures var accounts := map[1 := Account("Safe", 10.0)];
            var t := Transaction("2024-01-01", "REFUND", "", 5.0, Some(1), None, None);
            !IsKnownType(t.kind) && Unpost(Recorded(accounts, t), t)[1].balance == 15.0
  {
  }
}
