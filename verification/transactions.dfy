/**
 The two transaction logs and how they move the ledger. Registering a sale
 or a purchase appends its record and then applies a delta to the product's
 stock; deleting one finds the first record with the given id, applies the
 opposite delta and removes that record. Prices and amounts are integers
 in minor currency units.
 */
module Transactions {

  import opened Seqs
  import opened Ledger

  /* Ids come from `Date.now()` and nothing makes them unique. */
  type Id = string

  datatype Sale = Sale(
    id: Id,
    datum: string,
    produkt: Product,
    antal: int,
    pris: int,
    anteckning: string,
    totalbelopp: int)

  datatype Purchase = Purchase(
    id: Id,
    datum: string,
    produkt: Product,
    antal: int,
    kostnad: int,
    leverantor: string,
    anteckning: string,
    totalbelopp: int)

  /* The three storage slots: sales log, purchases log, inventory ledger. */
  datatype State = State(sales: seq<Sale>, purchases: seq<Purchase>, inventory: Inventory)

  /* What the sale form supplies. */
  datatype SaleForm = SaleForm(datum: string, produkt: Product, antal: int, pris: int, anteckning: string)

  /* What the purchase form supplies. */
  datatype PurchaseForm = PurchaseForm(
    datum: string,
    produkt: Product,
    antal: int,
    kostnad: int,
    leverantor: string,
    anteckning: string)

  function SaleId(s: Sale): Id { s.id }

  function PurchaseId(p: Purchase): Id { p.id }

  const SaleReason := "Försäljning"
  const SaleReversalReason := "Återförd från raderad försäljning"
  const PurchaseReversalReason := "Återförd från raderat inköp"

  function PurchaseReason(leverantor: string): string
  {
    "Inköp från " + leverantor
  }

  /* The record the sale form produces; its amount is fixed here, once. */
  function NewSale(id: Id, f: SaleForm): Sale
  {
    Sale(id, f.datum, f.produkt, f.antal, f.pris, f.anteckning, f.antal * f.pris)
  }

  /* The record the purchase form produces; its amount is fixed here, once. */
  function NewPurchase(id: Id, f: PurchaseForm): Purchase
  {
    Purchase(id, f.datum, f.produkt, f.antal, f.kostnad, f.leverantor, f.anteckning, f.antal * f.kostnad)
  }

  /* Submitting the sale form: `saveSale` appends the record, then the stock
     of the product drops by the quantity, floored at zero. */
  function HandleSaleForm(st: State, id: Id, f: SaleForm, now: Timestamp): (r: State)
    ensures |r.sales| == |st.sales| + 1 && r.sales[..|st.sales|] == st.sales
    ensures var s := r.sales[|st.sales|];
            && s.id == id && s.datum == f.datum && s.produkt == f.produkt
            && s.antal == f.antal && s.pris == f.pris && s.anteckning == f.anteckning
            && s.totalbelopp == s.antal * s.pris
    ensures r.purchases == st.purchases
    ensures f.produkt in r.inventory
    ensures Stock(r.inventory, f.produkt) == Max(0, Stock(st.inventory, f.produkt) - f.antal)
    ensures r.inventory[f.produkt].anledning == SaleReason
    ensures OthersUnchanged(st.inventory, r.inventory, f.produkt)
  {
    var sales := st.sales + [NewSale(id, f)];
    State(sales, st.purchases, UpdateInventory(st.inventory, f.produkt, -f.antal, SaleReason, now))
  }

  /* Submitting the purchase form: `savePurchase` appends the record, then the
     stock of the product rises by the quantity. */
  function HandlePurchaseForm(st: State, id: Id, f: PurchaseForm, now: Timestamp): (r: State)
    ensures |r.purchases| == |st.purchases| + 1 && r.purchases[..|st.purchases|] == st.purchases
    ensures var p := r.purchases[|st.purchases|];
            && p.id == id && p.datum == f.datum && p.produkt == f.produkt
            && p.antal == f.antal && p.kostnad == f.kostnad && p.leverantor == f.leverantor
            && p.anteckning == f.anteckning
            && p.totalbelopp == p.antal * p.kostnad
    ensures r.sales == st.sales
    ensures f.produkt in r.inventory
    ensures Stock(r.inventory, f.produkt) == Max(0, Stock(st.inventory, f.produkt) + f.antal)
    ensures Stock(st.inventory, f.produkt) >= 0 && f.antal >= 0 ==>
              Stock(r.inventory, f.produkt) == Stock(st.inventory, f.produkt) + f.antal
    ensures r.inventory[f.produkt].anledning == PurchaseReason(f.leverantor)
    ensures OthersUnchanged(st.inventory, r.inventory, f.produkt)
  {
    var purchases := st.purchases + [NewPurchase(id, f)];
    State(st.sales, purchases, UpdateInventory(st.inventory, f.produkt, f.antal, PurchaseReason(f.leverantor), now))
  }

  /* `deleteSale(id)` after the user confirmed: an unknown id changes nothing;
     otherwise the first sale with that id gives its quantity back to the
     stock and leaves the log, the others keeping their order. */
  function DeleteSale(st: State, id: Id, now: Timestamp): (r: State)
    ensures Absent(st.sales, SaleId, id) ==> r == st
    ensures forall i | IsFirst(st.sales, SaleId, id, i) ::
              && r.sales == RemoveAt(st.sales, i)
              && r.purchases == st.purchases
              && st.sales[i].produkt in r.inventory
              && Stock(r.inventory, st.sales[i].produkt)
                   == Max(0, Stock(st.inventory, st.sales[i].produkt) + st.sales[i].antal)
              && r.inventory[st.sales[i].produkt].anledning == SaleReversalReason
              && OthersUnchanged(st.inventory, r.inventory, st.sales[i].produkt)
  {
    match FindFirst(st.sales, SaleId, id)
    case None => st
    case Some(i) =>
      var sale := st.sales[i];
      var inventory := UpdateInventory(st.inventory, sale.produkt, sale.antal, SaleReversalReason, now);
      State(RemoveAt(st.sales, i), st.purchases, inventory)
  }

  /* `deletePurchase(id)` after the user confirmed: an unknown id changes
     nothing; otherwise the first purchase with that id takes its quantity
     back out of the stock, floored at zero, and leaves the log. */
  function DeletePurchase(st: State, id: Id, now: Timestamp): (r: State)
    ensures Absent(st.purchases, PurchaseId, id) ==> r == st
    ensures forall i | IsFirst(st.purchases, PurchaseId, id, i) ::
              && r.purchases == RemoveAt(st.purchases, i)
              && r.sales == st.sales
              && st.purchases[i].produkt in r.inventory
              && Stock(r.inventory, st.purchases[i].produkt)
                   == Max(0, Stock(st.inventory, st.purchases[i].produkt) - st.purchases[i].antal)
              && r.inventory[st.purchases[i].produkt].anledning == PurchaseReversalReason
              && OthersUnchanged(st.inventory, r.inventory, st.purchases[i].produkt)
  {
    match FindFirst(st.purchases, PurchaseId, id)
    case None => st
    case Some(i) =>
      var purchase := st.purchases[i];
      var inventory := UpdateInventory(st.inventory, purchase.produkt, -purchase.antal, PurchaseReversalReason, now);
      State(st.sales, RemoveAt(st.purchases, i), inventory)
  }

  /* Registering a sale under a fresh id and deleting it again gives back
     both logs unchanged and leaves every other product alone. The product's
     stock `s` (non-negative) ends at max(s, antal): it is restored exactly
     when `s >= antal`, and otherwise ends at `antal`, because the sale's
     delta was floored at zero and the reversal adds the full quantity. */
  lemma SaleRoundTrip(st: State, id: Id, f: SaleForm, t1: Timestamp, t2: Timestamp)
    requires Absent(st.sales, SaleId, id)
    requires Stock(st.inventory, f.produkt) >= 0
    ensures var r := DeleteSale(HandleSaleForm(st, id, f, t1), id, t2);
            && r.sales == st.sales
            && r.purchases == st.purchases
            && Stock(r.inventory, f.produkt) == Max(Stock(st.inventory, f.produkt), f.antal)
            && (Stock(r.inventory, f.produkt) == Stock(st.inventory, f.produkt) <==>
                Stock(st.inventory, f.produkt) >= f.antal)
            && OthersUnchanged(st.inventory, r.inventory, f.produkt)
  {
    var mid := HandleSaleForm(st, id, f, t1);
    var n := |st.sales|;
    assert IsFirst(mid.sales, SaleId, id, n);
    assert RemoveAt(mid.sales, n) == st.sales;
    DeltaThenInverse(st.inventory, f.produkt, -f.antal, SaleReason, t1, SaleReversalReason, t2);
  }

  /* The clamped case with concrete numbers: a stock of 2, a sale of 3, and
     the sale deleted: the stock ends at 3, not 2. */
  lemma SaleRoundTripClamped(st: State, id: Id, f: SaleForm, t1: Timestamp, t2: Timestamp)
    requires Absent(st.sales, SaleId, id)
    requires Stock(st.inventory, f.produkt) == 2 && f.antal == 3
    ensures Stock(HandleSaleForm(st, id, f, t1).inventory, f.produkt) == 0
    ensures Stock(DeleteSale(HandleSaleForm(st, id, f, t1), id, t2).inventory, f.produkt) == 3
  {
    SaleRoundTrip(st, id, f, t1, t2);
  }

  /* Registering a purchase under a fresh id and deleting it again gives back
     both logs unchanged and leaves every other product alone. The product's
     stock `s` (non-negative) ends at max(s, -antal): it is restored exactly
     when the purchase's own delta was not floored, which holds for every
     non-negative quantity. */
  lemma PurchaseRoundTrip(st: State, id: Id, f: PurchaseForm, t1: Timestamp, t2: Timestamp)
    requires Absent(st.purchases, PurchaseId, id)
    requires Stock(st.inventory, f.produkt) >= 0
    ensures var r := DeletePurchase(HandlePurchaseForm(st, id, f, t1), id, t2);
            && r.sales == st.sales
            && r.purchases == st.purchases
            && Stock(r.inventory, f.produkt) == Max(Stock(st.inventory, f.produkt), -f.antal)
            && (Stock(r.inventory, f.produkt) == Stock(st.inventory, f.produkt) <==>
                Stock(st.inventory, f.produkt) + f.antal >= 0)
            && OthersUnchanged(st.inventory, r.inventory, f.produkt)
  {
    var mid := HandlePurchaseForm(st, id, f, t1);
    var n := |st.purchases|;
    assert IsFirst(mid.purchases, PurchaseId, id, n);
    assert RemoveAt(mid.purchases, n) == st.purchases;
    DeltaThenInverse(st.inventory, f.produkt, f.antal, PurchaseReason(f.leverantor), t1, PurchaseReversalReason, t2);
  }

  /* When the id of a new sale was already taken (two sales in the same
     millisecond), deleting by that id removes the OLDER record and gives
     back that record's quantity, while the new sale stays in the log and its
     own stock change stays in force. */
  lemma SaleDuplicateIdRemovesOlder(st: State, id: Id, f: SaleForm, t1: Timestamp, t2: Timestamp, i: nat)
    requires IsFirst(st.sales, SaleId, id, i)
    ensures var r := DeleteSale(HandleSaleForm(st, id, f, t1), id, t2);
            var older := st.sales[i];
            && r.sales == RemoveAt(st.sales, i) + [NewSale(id, f)]
            && r.sales[|r.sales| - 1].id == id
            && Stock(r.inventory, older.produkt)
                 == Max(0, Stock(HandleSaleForm(st, id, f, t1).inventory, older.produkt) + older.antal)
            && (older.produkt != f.produkt ==>
                  && Stock(r.inventory, older.produkt) == Max(0, Stock(st.inventory, older.produkt) + older.antal)
                  && Stock(r.inventory, f.produkt) == Max(0, Stock(st.inventory, f.produkt) - f.antal))
  {
    var mid := HandleSaleForm(st, id, f, t1);
    var older := st.sales[i];
    assert mid.sales[i] == older;
    assert IsFirst(mid.sales, SaleId, id, i);
    assert RemoveAt(mid.sales, i) == RemoveAt(st.sales, i) + [NewSale(id, f)];
    var r := DeleteSale(mid, id, t2);
    assert Stock(r.inventory, older.produkt) == Max(0, Stock(mid.inventory, older.produkt) + older.antal);
    if older.produkt != f.produkt {
      assert Stock(mid.inventory, older.produkt) == Stock(st.inventory, older.produkt);
      assert Stock(r.inventory, f.produkt) == Stock(mid.inventory, f.produkt);
    }
  }
}
