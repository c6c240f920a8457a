/**
 The inventory ledger: one entry per product name, holding the current
 stock (`antal`), the time of the last change and the reason given for it.
 Two primitives change it: a signed delta whose result is floored at zero,
 and an absolute overwrite with no floor.
 */
module Ledger {

  type Product = string

  /* The ISO-8601 text of `new Date().toISOString()`; the clock is a parameter. */
  type Timestamp = string

  datatype Entry = Entry(antal: int, senastUppdaterad: Timestamp, anledning: string)

  type Inventory = map<Product, Entry>

  function Max(a: int, b: int): int
  {
    if a < b then b else a
  }

  /* The stock of a product as the delta primitive sees it: a product with no
     entry counts as 0. */
  function Stock(inv: Inventory, p: Product): int
  {
    if p in inv then inv[p].antal else 0
  }

  /* No entry holds a negative stock. */
  predicate NonNegative(inv: Inventory)
  {
    forall p | p in inv :: inv[p].antal >= 0
  }

  /* Every product other than `p` has the same entry, or the same absence of
     one, in both ledgers. */
  predicate OthersUnchanged(inv: Inventory, inv': Inventory, p: Product)
  {
    && (forall q | q in inv && q != p :: q in inv' && inv'[q] == inv[q])
    && (forall q | q in inv' && q != p :: q in inv)
  }

  /* `updateInventory(product, quantityChange, reason)`: a missing entry
     starts at 0, the delta is added, and a negative result is raised to 0.
     The reason and the time are overwritten, never accumulated. */
  function UpdateInventory(inv: Inventory, product: Product, change: int, reason: string, now: Timestamp): (r: Inventory)
    ensures product in r
    ensures r[product].antal == Max(0, Stock(inv, product) + change)
    ensures r[product].antal == Stock(inv, product) + change <==> Stock(inv, product) + change >= 0
    ensures r[product].anledning == reason && r[product].senastUppdaterad == now
    ensures OthersUnchanged(inv, r, product)
    ensures NonNegative(inv) ==> NonNegative(r)
  {
    var current := if product in inv then inv[product].antal else 0;
    var sum := current + change;
    inv[product := Entry(if sum < 0 then 0 else sum, now, reason)]
  }

  /* `setInventory(product, quantity, reason)`: the entry is replaced whatever
     it held, and the quantity is stored as given, negative or not. */
  function SetInventory(inv: Inventory, product: Product, quantity: int, reason: string, now: Timestamp): (r: Inventory)
    ensures product in r && Stock(r, product) == quantity
    ensures r[product].anledning == reason && r[product].senastUppdaterad == now
    ensures OthersUnchanged(inv, r, product)
    ensures NonNegative(r) <==> NonNegative(inv - {product}) && quantity >= 0
  {
    var r := inv[product := Entry(quantity, now, reason)];
    assert NonNegative(r) ==> quantity >= 0 by {
      if NonNegative(r) { assert r[product].antal >= 0; }
    }
    assert forall q | q in inv - {product} :: q in r && r[q] == inv[q];
    r
  }

  /* One call of the delta primitive, as data. */
  datatype Adjustment = Adjustment(product: Product, change: int, reason: string, now: Timestamp)

  /* A sequence of delta calls, applied first to last. */
  function ApplyAll(inv: Inventory, adjs: seq<Adjustment>): Inventory
    decreases |adjs|
  {
    if |adjs| == 0 then inv
    else
      var a := adjs[0];
      ApplyAll(UpdateInventory(inv, a.product, a.change, a.reason, a.now), adjs[1..])
  }

  /* No sequence of delta calls can make a non-negative ledger negative. */
  lemma {:induction false} ApplyAllNonNegative(inv: Inventory, adjs: seq<Adjustment>)
    requires NonNegative(inv)
    ensures NonNegative(ApplyAll(inv, adjs))
    decreases |adjs|
  {
    if |adjs| > 0 {
      var a := adjs[0];
      ApplyAllNonNegative(UpdateInventory(inv, a.product, a.change, a.reason, a.now), adjs[1..]);
    }
  }

  /* A delta followed by the opposite delta on the same product. Starting from
     a non-negative stock `s`, the stock ends at max(s, -d): it comes back to
     `s` exactly when the first delta was not clamped. */
  lemma DeltaThenInverse(inv: Inventory, p: Product, d: int, r1: string, t1: Timestamp, r2: string, t2: Timestamp)
    requires Stock(inv, p) >= 0
    ensures var inv' := UpdateInventory(UpdateInventory(inv, p, d, r1, t1), p, -d, r2, t2);
            && Stock(inv', p) == Max(Stock(inv, p), -d)
            && (Stock(inv', p) == Stock(inv, p) <==> Stock(inv, p) + d >= 0)
            && OthersUnchanged(inv, inv', p)
  {
    var mid := UpdateInventory(inv, p, d, r1, t1);
    var inv' := UpdateInventory(mid, p, -d, r2, t2);
    assert Stock(mid, p) == Max(0, Stock(inv, p) + d);
    assert Stock(inv', p) == Max(0, Stock(mid, p) - d);
  }
}
