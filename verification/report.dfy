/**
 The report tab: total sales, total purchases and their difference, folded
 from the two logs every time it is shown.
 */
module Report {

  import opened Seqs
  import opened Ledger
  import opened Transactions

  datatype Totals = Totals(totalSales: int, totalPurchases: int, profit: int)

  function SaleAmount(s: Sale): int { s.totalbelopp }

  function PurchaseAmount(p: Purchase): int { p.totalbelopp }

  /* The figures `displayReport` shows, before formatting. */
  function ComputeReport(st: State): Totals
  {
    var totalSales := Sum(st.sales, SaleAmount);
    var totalPurchases := Sum(st.purchases, PurchaseAmount);
    Totals(totalSales, totalPurchases, totalSales - totalPurchases)
  }

  /* A new sale raises total sales and profit by antal * pris and leaves
     total purchases alone. */
  lemma ReportAfterSale(st: State, id: Id, f: SaleForm, now: Timestamp)
    ensures var before := ComputeReport(st);
            var after := ComputeReport(HandleSaleForm(st, id, f, now));
            && after.totalSales == before.totalSales + f.antal * f.pris
            && after.totalPurchases == before.totalPurchases
            && after.profit == before.profit + f.antal * f.pris
  {
    SumAppend(st.sales, NewSale(id, f), SaleAmount);
  }

  /* A new purchase raises total purchases by antal * kostnad and lowers the
     profit by the same amount. */
  lemma ReportAfterPurchase(st: State, id: Id, f: PurchaseForm, now: Timestamp)
    ensures var before := ComputeReport(st);
            var after := ComputeReport(HandlePurchaseForm(st, id, f, now));
            && after.totalPurchases == before.totalPurchases + f.antal * f.kostnad
            && after.totalSales == before.totalSales
            && after.profit == before.profit - f.antal * f.kostnad
  {
    SumAppend(st.purchases, NewPurchase(id, f), PurchaseAmount);
  }

  /* Deleting the sale at `i`, the first one carrying the id, takes exactly
     that record's amount out of total sales and profit. (An unknown id leaves
     the whole state, and so the report, as it was.) */
  lemma ReportAfterDeleteSale(st: State, id: Id, now: Timestamp, i: nat)
    requires IsFirst(st.sales, SaleId, id, i)
    ensures var before := ComputeReport(st);
            var after := ComputeReport(DeleteSale(st, id, now));
            && after.totalSales == before.totalSales - st.sales[i].totalbelopp
            && after.totalPurchases == before.totalPurchases
            && after.profit == before.profit - st.sales[i].totalbelopp
  {
    SumRemoveAt(st.sales, i, SaleAmount);
  }

  /* Deleting the purchase at `i`, the first one carrying the id, takes
     exactly that record's amount out of total purchases and adds it back to
     the profit. */
  lemma ReportAfterDeletePurchase(st: State, id: Id, now: Timestamp, i: nat)
    requires IsFirst(st.purchases, PurchaseId, id, i)
    ensures var before := ComputeReport(st);
            var after := ComputeReport(DeletePurchase(st, id, now));
            && after.totalPurchases == before.totalPurchases - st.purchases[i].totalbelopp
            && after.totalSales == before.totalSales
            && after.profit == before.profit + st.purchases[i].totalbelopp
  {
    SumRemoveAt(st.purchases, i, PurchaseAmount);
  }

  /* Two sales of 100 and 50 and one purchase of 30 report 150, 30 and a
     profit of 120. */
  lemma ReportExample(a: Sale, b: Sale, c: Purchase, inv: Inventory)
    requires a.totalbelopp == 100 && b.totalbelopp == 50 && c.totalbelopp == 30
    ensures ComputeReport(State([a, b], [c], inv)) == Totals(150, 30, 120)
  {
    SumAppend([a], b, SaleAmount);
    assert [a] + [b] == [a, b];
    SumAppend([], a, SaleAmount);
    assert [] + [a] == [a];
    SumAppend([], c, PurchaseAmount);
    assert [] + [c] == [c];
  }
}
