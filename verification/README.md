# Bubbelbudget inventory ledger, in Dafny

A model of the bookkeeping core of Bubbelbudget, a browser-only tool for a
small business. The model covers the sales log (`försäljning`), the purchases
log (`inköp`) and the inventory ledger (`lager`). It models them as one
immutable `State` of two sequences and a map from product name to
`Entry(antal, senastUppdaterad, anledning)`. Every entry point that writes
these three storage slots is a pure function from `State` to `State`:

- registering a sale or a purchase appends its record, then moves the stock;
- deleting a sale or a purchase reverses the stock move of the first record
  with that id, then removes that record;
- the stock form overwrites an entry;
- import replaces the slots present in a backup file;
- clear empties all three slots.

The report is a fold over both logs.

Modules, one per concern:

- `Seqs` (`seqs.dfy`): `findIndex`, `splice(i, 1)` and `reduce` over sequences.
- `Ledger` (`ledger.dfy`): `updateInventory` (signed delta, floored at 0) and
  `setInventory` (absolute overwrite, no floor).
- `Transactions` (`transactions.dfy`): the sale and purchase records, the form
  handlers that create them, and the two deletes.
- `Report` (`report.dfy`): total sales, total purchases and profit.
- `App` (`app.dfy`): the stock form, import, export, clear, and arbitrary
  sequences of user actions.

Amounts are integers in minor currency units. `totalbelopp` is fixed as
`antal * pris` (or `antal * kostnad`) when the record is created. Record ids
and clock readings are parameters. Nothing makes ids unique, and the model
does not assume they are.

Three facts about the code shape the model:

- Reads are not fail-open. `JSON.parse` at app.js:120-130 has no guard, so a
  corrupt slot throws. Reads are not modelled.
- Only three slots exist (app.js:2-6): sales, purchases and inventory. Export
  and import carry exactly these three.
- app.js checks the sign of neither quantities nor prices, so both are
  unrestricted `int`s. The round-trip lemmas state what happens for every
  quantity, from a non-negative starting stock.

The reason strings (app.js:66, 88, 102, 267, 281) appear in the source file
as UTF-8 text shown in the wrong encoding ("F√∂rs√§ljning"). The model reads
them as the Swedish text they encode: "Försäljning", "Inköp från ",
"Återförd från raderad försäljning" and "Återförd från raderat inköp".

## Model

| member | source | states |
|---|---|---|
| `Seqs.FindFirst` | app.js:264 | `findIndex` by id: the answer is -1 (`None`) exactly when no record has the id; otherwise it is the first index whose record has the id, and it is the only index with that property |
| `Seqs.RemoveAt` | app.js:268 | `splice(i, 1)` drops exactly element `i`: one element shorter, the earlier elements in place, the later ones shifted down by one, and the same multiset minus that element |
| `Seqs.SumAppend` | app.js:247-248 | appending a record raises the `reduce` total by exactly that record's amount |
| `Seqs.SumConcat` | app.js:247-248 | the `reduce` total of two logs joined is the sum of their totals |
| `Seqs.SumRemoveAt` | app.js:247-248 | removing the record at `i` lowers the `reduce` total by exactly that record's amount |
| `Ledger.UpdateInventory` | app.js:132-148 | after a delta, the product has an entry whose stock is max(0, old + delta), where old is 0 for a product with no entry. The stock equals old + delta exactly when that is non-negative. The reason and time are the new ones. Every other product's entry, or its absence, is unchanged. A non-negative ledger stays non-negative |
| `Ledger.SetInventory` | app.js:150-158 | after an absolute set, the product's stock is exactly the given quantity, negative or not, whatever it held before. Every other entry is unchanged. The ledger is non-negative afterwards exactly when the quantity and all other entries are |
| `Ledger.ApplyAllNonNegative` | app.js:142-145 | any sequence of delta updates keeps a non-negative ledger non-negative |
| `Ledger.DeltaThenInverse` | app.js:138-145 | a delta d followed by -d on the same product takes a non-negative stock s to max(s, -d). It comes back to s exactly when s + d >= 0, i.e. when the first delta was not clamped. Other products are unchanged |
| `Transactions.HandleSaleForm` | app.js:55-66 | registering a sale grows the sales log by one. Earlier records are untouched and the new record is last, with the form's fields and `totalbelopp = antal * pris`. Purchases are unchanged. The product's stock becomes max(0, old - antal) with reason "Försäljning". Other products are unchanged |
| `Transactions.HandlePurchaseForm` | app.js:76-88 | registering a purchase grows the purchases log by one. Earlier records are untouched and the new record is last, with `totalbelopp = antal * kostnad`. Sales are unchanged. The product's stock becomes max(0, old + antal), which is old + antal for non-negative stock and quantity, with reason "Inköp från " + supplier. Other products are unchanged |
| `Transactions.DeleteSale` | app.js:260-272 | if no sale has the id, the whole state is unchanged. Otherwise exactly the first sale with the id is removed, the rest keep their order, purchases are unchanged, and that sale's product gets max(0, stock + antal) with the reversal reason. Other products are unchanged |
| `Transactions.DeletePurchase` | app.js:274-286 | if no purchase has the id, the whole state is unchanged. Otherwise exactly the first purchase with the id is removed, the rest keep their order, sales are unchanged, and that purchase's product gets max(0, stock - antal) with the reversal reason. Other products are unchanged |
| `Transactions.SaleRoundTrip` | app.js:264-268 | from a non-negative stock s, registering a sale under a fresh id and deleting it restores both logs and every other product. The product's stock ends at max(s, antal), so it is restored exactly when s >= antal |
| `Transactions.SaleRoundTripClamped` | app.js:143-145 | stock 2, sale of 3: the stock clamps to 0, and after the delete it is 3, not 2 |
| `Transactions.PurchaseRoundTrip` | app.js:278-282 | from a non-negative stock s, registering a purchase under a fresh id and deleting it restores both logs and every other product. The product's stock ends at max(s, -antal), so it is restored exactly when s + antal >= 0, which holds for every non-negative quantity |
| `Transactions.SaleDuplicateIdRemovesOlder` | app.js:264-268 | when a new sale reuses an existing id, deleting by that id removes the older record and gives back that record's quantity to its product. The new sale stays last in the log, and when the products differ its own stock decrease stays in force |
| `Report.ReportAfterSale` | app.js:62 | a new sale raises total sales and profit by antal * pris and leaves total purchases unchanged |
| `Report.ReportAfterPurchase` | app.js:84 | a new purchase raises total purchases by antal * kostnad, lowers the profit by the same amount, and leaves total sales unchanged |
| `Report.ReportAfterDeleteSale` | app.js:264-269 | deleting a sale lowers total sales and profit by exactly the deleted record's amount and leaves total purchases unchanged |
| `Report.ReportAfterDeletePurchase` | app.js:278-283 | deleting a purchase lowers total purchases by exactly the deleted record's amount, raises the profit by it, and leaves total sales unchanged |
| `Report.ReportExample` | app.js:247-249 | `ComputeReport` (`displayReport`) folds `totalbelopp` over each log and takes profit as sales minus purchases: sales of 100 and 50 and a purchase of 30 report 150, 30 and a profit of 120. The `ReportAfter*` rows state how each operation moves these totals |
| `App.HandleInventoryForm` | app.js:98-102 | the stock form sets the product's stock to exactly the given quantity. An empty note gives the reason "Manuell justering"; any other note is the reason. Logs and other products are unchanged |
| `App.Import` | app.js:326-339 | an unparsable file changes nothing. Otherwise each slot present in the file replaces the stored slot wholesale and each missing slot is left as it was |
| `App.ImportOfExport` | app.js:296-301 | `Export` (`exportData`) writes all three slots; importing that backup restores exactly the exported state, whatever state it is imported into |
| `App.ClearResets` | app.js:347-349 | `Clear` (`clearAllData`) empties all three slots: afterwards the report is zero, every product reads stock 0, and deleting any id changes nothing |
| `App.StepNonNegative` | app.js:102 | from a non-negative ledger, a user action (sale, purchase, either delete, recount, import or clear) leaves the ledger non-negative exactly when it is not a recount to a negative quantity and not an import of a ledger with a negative entry |
| `App.RunNonNegative` | app.js:142-145 | any sequence of sales, purchases, deletions, clears, non-negative recounts and imports of non-negative ledgers keeps a non-negative ledger non-negative |

## Left out

- DOM and presentation: form reading, tab switching, HTML templating, the
  date sort and top-10 slice of the lists, `toFixed`, `formatDate` and the
  profit colour (app.js:9-49, 160-241, 250-256, 288-292). They do not change
  the stored data.
- `localStorage` and JSON (de)serialisation: the three slots are the fields of
  `State`. A corrupt slot makes `JSON.parse` throw in the source, and that
  failure is not modelled.
- Confirmation dialogs: deletes, import and clear are modelled as already
  confirmed. A declined dialog changes nothing.
- The FileReader, Blob and URL plumbing of export and import
  (app.js:303-318, 321-324). `Export` and `Reread` stand for writing a backup
  and parsing it back. A parse failure is the `None` input of `Import`.
- Import of ill-typed data: the source stores whatever the file holds under a
  truthy key. The model's `ImportDoc` is typed, and a falsy value (`null`,
  `0`, `""`) is the same as a missing key.
- Id generation and the clock: `Date.now()` ids and `toISOString()` times are
  parameters.
- Numeric parsing and floating point: `parseInt`/`parseFloat` NaN results and
  IEEE rounding of `antal * pris` and of the sums are not modelled. Prices and
  amounts are exact integers in minor units.
- Product names that collide with `Object.prototype` members (for example
  `toString`): the source's `!inventory[product]` test sees an inherited
  function there. The model treats every name as an ordinary key.
