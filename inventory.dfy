/// The ship's ore `Inventory`: a counter bounded by a fixed maximum.
module Inventories {

  class Inventory {
    var amount: nat
    const maxAmount: nat

    /// The counter never exceeds the maximum.
    ghost predicate Valid()
      reads this
    {
      amount <= maxAmount
    }

    /// `Inventory::new`: empty, with the given maximum.
    constructor(maxAmount: nat)
      ensures Valid()
      ensures amount == 0 && this.maxAmount == maxAmount
    {
      amount := 0;
      this.maxAmount := maxAmount;
    }

    /// `can_add`: whether `n` more units still fit.
    function CanAdd(n: nat): (ok: bool)
      reads this
      ensures ok <==> amount + n <= maxAmount
    {
      if amount + n > maxAmount then false else true
    }

    /// `try_add`: adds `n` units when they fit; reports whether it did.
    method TryAdd(n: nat) returns (added: bool)
      requires Valid()
      modifies this
      ensures Valid()
      ensures added <==> old(CanAdd(n))
      ensures amount == if added then old(amount) + n else old(amount)
    {
      if !CanAdd(n) {
        return false;
      }
      amount := amount + n;
      return true;
    }
  }

  /// A valid inventory accepts `n` more units exactly when `n` is at most its
  /// free capacity; so if `n` fits, every smaller count fits too.
  lemma CanAddIsFreeCapacity(inv: Inventory, n: nat, m: nat)
    requires inv.Valid()
    ensures inv.CanAdd(n) <==> n <= inv.maxAmount - inv.amount
    ensures inv.CanAdd(n) && m <= n ==> inv.CanAdd(m)
  {
  }

  /// The `InventoryUpdate` event payload.
  datatype InventoryUpdate = InventoryUpdate(newAmount: nat, maxAmount: nat)

  /// The event sent for a changed inventory carries its current state.
  function UpdateFor(inv: Inventory): (u: InventoryUpdate)
    reads inv
    ensures u.newAmount == inv.amount && u.maxAmount == inv.maxAmount
  {
    InventoryUpdate(inv.amount, inv.maxAmount)
  }
}
