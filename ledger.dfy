/**
 * The `saldo` table as a map from user id to balance, and the two relative
 * updates the bot applies to it.
 */
module Ledger {

  type UserId = int

  /** What `get_saldo` reads: the stored balance, 0 for a user without a row. */
  function BalanceOf(saldo: map<UserId, int>, u: UserId): int {
    if u in saldo then saldo[u] else 0
  }

  /**
   * `tambah_saldo`: insert a 0 row when absent, then add `amount`.
   * Only `u`'s balance moves, by exactly `amount`.
   */
  function Credit(saldo: map<UserId, int>, u: UserId, amount: int): (r: map<UserId, int>)
    ensures r.Keys == saldo.Keys + {u}
    ensures BalanceOf(r, u) == BalanceOf(saldo, u) + amount
    ensures forall v :: v != u ==> BalanceOf(r, v) == BalanceOf(saldo, v)
  {
    saldo[u := BalanceOf(saldo, u) + amount]
  }

  /**
   * `kurang_saldo`: subtract `amount` from an existing row. No row is
   * created, so a user without one is left without one. Sufficiency is
   * not checked: the balance may go negative.
   */
  function Debit(saldo: map<UserId, int>, u: UserId, amount: int): (r: map<UserId, int>)
    ensures r.Keys == saldo.Keys
    ensures u in saldo ==> BalanceOf(r, u) == saldo[u] - amount
    ensures u !in saldo ==> r == saldo
    ensures forall v :: v != u ==> BalanceOf(r, v) == BalanceOf(saldo, v)
  {
    if u in saldo then saldo[u := saldo[u] - amount] else saldo
  }

  /** A compensating credit after a debit of an existing row restores the table exactly. */
  lemma CreditUndoesDebit(saldo: map<UserId, int>, u: UserId, amount: int)
    requires u in saldo
    ensures Credit(Debit(saldo, u, amount), u, amount) == saldo
  {
  }

  /**
   * Without a row the debit is lost but the compensating credit is not:
   * the user ends with a new row holding `amount` instead of reading 0.
   */
  lemma CompensationWithoutRow(saldo: map<UserId, int>, u: UserId, amount: int)
    requires u !in saldo
    ensures BalanceOf(Credit(Debit(saldo, u, amount), u, amount), u) == BalanceOf(saldo, u) + amount
  {
  }
}
