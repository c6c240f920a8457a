/**
 The whole application state seen from its entry points: the manual stock
 form, importing and exporting a backup, clearing everything, and any
 sequence of these operations together with the transaction forms.
 */
module App {

  import opened Seqs
  import opened Ledger
  import opened Transactions
  import opened Report

  const ManualReason := "Manuell justering"

  /* Submitting the stock form: an absolute set, with a default reason when
     the note is left empty (`anteckning || 'Manuell justering'`). */
  function HandleInventoryForm(st: State, produkt: Product, antal: int, anteckning: string, now: Timestamp): (r: State)
    ensures r.sales == st.sales && r.purchases == st.purchases
    ensures produkt in r.inventory && Stock(r.inventory, produkt) == antal
    ensures anteckning != "" ==> r.inventory[produkt].anledning == anteckning
    ensures anteckning == "" ==> r.inventory[produkt].anledning == ManualReason
    ensures OthersUnchanged(st.inventory, r.inventory, produkt)
  {
    var reason := if anteckning == "" then ManualReason else anteckning;
    st.(inventory := SetInventory(st.inventory, produkt, antal, reason, now))
  }

  /* A parsed backup document. Each slot is `None` when the key is missing
     (or holds a falsy value) and `Some` when it is present; an empty array
     or object is present, since JavaScript treats it as true. */
  datatype ImportDoc = ImportDoc(
    sales: Option<seq<Sale>>,
    purchases: Option<seq<Purchase>>,
    inventory: Option<Inventory>)

  /* The document `exportData` writes; `exportDate` is ignored on import. */
  datatype ExportDoc = ExportDoc(sales: seq<Sale>, purchases: seq<Purchase>, inventory: Inventory, exportDate: Timestamp)

  function Export(st: State, now: Timestamp): ExportDoc
  {
    ExportDoc(st.sales, st.purchases, st.inventory, now)
  }

  /* Reading an exported file back gives a document with all three keys. */
  function Reread(e: ExportDoc): ImportDoc
  {
    ImportDoc(Some(e.sales), Some(e.purchases), Some(e.inventory))
  }

  /* `handleImport` after the user confirmed. `None` is a file that did not
     parse: the exception is caught before any slot is written. Otherwise
     each slot present in the document replaces the stored one wholesale,
     and each absent slot is left as it was. */
  function Import(st: State, parsed: Option<ImportDoc>): (r: State)
    ensures parsed.None? ==> r == st
    ensures parsed.Some? && parsed.value.sales.Some? ==> r.sales == parsed.value.sales.value
    ensures parsed.Some? && parsed.value.sales.None? ==> r.sales == st.sales
    ensures parsed.Some? && parsed.value.purchases.Some? ==> r.purchases == parsed.value.purchases.value
    ensures parsed.Some? && parsed.value.purchases.None? ==> r.purchases == st.purchases
    ensures parsed.Some? && parsed.value.inventory.Some? ==> r.inventory == parsed.value.inventory.value
    ensures parsed.Some? && parsed.value.inventory.None? ==> r.inventory == st.inventory
  {
    match parsed
    case None => st
    case Some(doc) =>
      var sales := if doc.sales.Some? then doc.sales.value else st.sales;
      var purchases := if doc.purchases.Some? then doc.purchases.value else st.purchases;
      var inventory := if doc.inventory.Some? then doc.inventory.value else st.inventory;
      State(sales, purchases, inventory)
  }

  /* Importing a backup restores exactly the state it was exported from,
     whatever state it is imported into. */
  lemma ImportOfExport(st: State, other: State, now: Timestamp)
    ensures Import(other, Some(Reread(Export(st, now)))) == st
  {
  }

  /* `clearAllData` after both confirmations: the three slots are removed, so
     every later read sees the defaults `[]`, `[]` and `{}`. */
  function Clear(st: State): State
  {
    State([], [], map[])
  }

  /* After a clear the report is all zeros, every product's stock reads 0,
     and deleting any id is a no-op. */
  lemma ClearResets(st: State, p: Product, id: Id, now: Timestamp)
    ensures ComputeReport(Clear(st)) == Totals(0, 0, 0)
    ensures Stock(Clear(st).inventory, p) == 0 && NonNegative(Clear(st).inventory)
    ensures DeleteSale(Clear(st), id, now) == Clear(st)
    ensures DeletePurchase(Clear(st), id, now) == Clear(st)
  {
  }

  /* One user action that changes the stored data. `ImportFile` is an
     import the user confirmed, `ClearAll` a clear the user confirmed twice. */
  datatype Op =
    | RegisterSale(id: Id, sale: SaleForm, now: Timestamp)
    | RegisterPurchase(id: Id, purchase: PurchaseForm, now: Timestamp)
    | RemoveSale(id: Id, now: Timestamp)
    | RemovePurchase(id: Id, now: Timestamp)
    | Recount(produkt: Product, antal: int, anteckning: string, now: Timestamp)
    | ImportFile(parsed: Option<ImportDoc>)
    | ClearAll

  function Step(st: State, op: Op): State
  {
    match op
    case RegisterSale(id, f, now) => HandleSaleForm(st, id, f, now)
    case RegisterPurchase(id, f, now) => HandlePurchaseForm(st, id, f, now)
    case RemoveSale(id, now) => DeleteSale(st, id, now)
    case RemovePurchase(id, now) => DeletePurchase(st, id, now)
    case Recount(p, q, note, now) => HandleInventoryForm(st, p, q, note, now)
    case ImportFile(parsed) => Import(st, parsed)
    case ClearAll => Clear(st)
  }

  /* The actions applied first to last. */
  function Run(st: State, ops: seq<Op>): State
    decreases |ops|
  {
    if |ops| == 0 then st else Run(Step(st, ops[0]), ops[1..])
  }

  /* The one action besides a recount that can write a negative stock: an
     import whose inventory holds one. */
  predicate Safe(op: Op)
  {
    match op
    case Recount(_, q, _, _) => q >= 0
    case ImportFile(parsed) =>
      parsed.None? || parsed.value.inventory.None? || NonNegative(parsed.value.inventory.value)
    case _ => true
  }

  /* No action in `ops` is a negative recount or an import of a negative stock. */
  predicate AllSafe(ops: seq<Op>)
  {
    forall k | 0 <= k < |ops| :: Safe(ops[k])
  }

  /* A single action keeps the ledger non-negative unless it is unsafe, and an
     unsafe one (a negative recount, or an import of a ledger with a negative
     entry) always makes it negative. */
  lemma StepNonNegative(st: State, op: Op)
    requires NonNegative(st.inventory)
    ensures NonNegative(Step(st, op).inventory) <==> Safe(op)
  {
    match op
    case Recount(p, q, note, now) =>
      var inv' := Step(st, op).inventory;
      if q < 0 {
        assert Stock(inv', p) < 0 && p in inv';
      }
    case _ =>
  }

  /* Sales, purchases, deletions, clears, non-negative recounts and imports of
     non-negative ledgers, in any number and order, never make a non-negative
     ledger negative. */
  lemma {:induction false} RunNonNegative(st: State, ops: seq<Op>)
    requires NonNegative(st.inventory)
    requires AllSafe(ops)
    ensures NonNegative(Run(st, ops).inventory)
    decreases |ops|
  {
    if |ops| > 0 {
      assert Safe(ops[0]);
      StepNonNegative(st, ops[0]);
      assert AllSafe(ops[1..]) by {
        forall k | 0 <= k < |ops[1..]|
          ensures Safe(ops[1..][k])
        {
          assert ops[1..][k] == ops[k + 1];
        }
      }
      RunNonNegative(Step(st, ops[0]), ops[1..]);
    }
  }
}
