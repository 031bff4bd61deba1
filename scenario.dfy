/**
 * A worked example through both stages: one line item of vendor 1, brand 10,
 * at purchase price 10 (5 units, 50 dollars), whose vendor name carries a
 * trailing blank; a reference row for brand 10 (price 12, volume "750");
 * no sales; one invoice of 100 freight for vendor 1.
 */
module Scenario {
  import opened Wrappers
  import opened Relational
  import opened VendorTable
  import opened VendorSummary
  import opened Cleaning

  const Vendor := "ACME SPIRITS"

  const Line := Purchase(1, Vendor + " ", 10, "BrandA 750ml", 10.0, 5.0, 50.0)
  const Ref := PurchasePrice(10, 12.0, "750")
  const FreightBill := Invoice(1, 100.0)

  /** The one row the query produces: no sales figures, 100 freight. */
  const SampleRow := VendorRow(1, Vendor + " ", 10, "BrandA 750ml", 10.0, 12.0, Text("750"),
                               None, None, None, None, 5.0, 50.0, Some(100.0), None)

  /** The example's join keeps its one line item, and each rollup has one group. */
  lemma SampleRollups()
    ensures JoinPrices([Line], [Ref]) == [JoinedPurchase(Line, Ref)]
    ensures |PurchaseSummary([Line], [Ref])| == 1
    ensures GroupTotal([FreightBill], InvoiceVendor, 1, InvoiceFreight) == Some(100.0)
  {
    var k := GroupKey(Line, Ref);
    assert MatchesOf([Ref], PriceBrand, 10) == [Ref];
    assert PricesFor(Line, [Ref]) == [JoinedPurchase(Line, Ref)];
    assert Column([JoinedPurchase(Line, Ref)], JoinedKey) == [k];
    assert |PurchaseSummary([Line], [Ref])| == |Distinct([k])| <= 1;
    assert k in Column(PurchaseSummary([Line], [Ref]), PurchaseRowKey);
    assert Column([FreightBill], InvoiceVendor) == [1];
    assert SumWhere([FreightBill], InvoiceVendor, 1, InvoiceFreight) == 100.0;
  }

  /** The vendor summary of the example is exactly SampleRow. */
  lemma {:induction false} SampleSummary()
    ensures CreateVendorSummary([Line], [Ref], [], [FreightBill]) == [SampleRow]
  {
    var out := CreateVendorSummary([Line], [Ref], [], [FreightBill]);
    SampleRollups();
    OutputRowsFromSources([Line], [Ref], [], [FreightBill]);
    assert |out| == 1;
    var r := out[0];
    assert r in out;
    SampleRowFromSources(r);
  }

  /** The only row the example's sources account for is SampleRow. */
  lemma SampleRowFromSources(r: VendorRow)
    requires RowFromSources(r, [Line], [Ref], [], [FreightBill])
    ensures r == SampleRow
  {
    var joined := JoinPrices([Line], [Ref]);
    var k := GroupKey(Line, Ref);
    SampleRollups();
    assert Column(joined, JoinedKey) == [k];
    assert RowKey(r) == k;
    assert SumWhere(joined, JoinedKey, k, JoinedDollars) == 50.0;
    assert SumWhere(joined, JoinedKey, k, JoinedQuantity) == 5.0;
  }

  /**
   * Cleaning SampleRow parses the volume, fills the missing sales with 0,
   * strips the vendor name, and gives GrossProfit -50, StockTurnover and
   * SalesToPurchaseRatio 0, and no ProfitMargin (zero sales dollars).
   */
  lemma SampleCleaned(toFloat: string -> Option<real>)
    requires toFloat("750") == Some(750.0)
    ensures var c := CleanRow(SampleRow, toFloat);
      && c.volume == Number(750.0)
      && c.vendorName == Vendor
      && c.totalSalesDollars == Some(0.0) && c.totalSalesQuantity == Some(0.0)
      && c.freightCost == Some(100.0)
      && c.metrics == Some(Metrics(-50.0, ZeroDivisor, Finite(0.0), Finite(0.0)))
  {
    CleanRowSpec(SampleRow, toFloat);
    SampleNameStripped();
  }

  /** Stripping the example's vendor name removes its one trailing space. */
  lemma SampleNameStripped()
    ensures Strip(Vendor + " ") == Vendor
  {
    var name := Vendor + " ";
    assert StripLeading(name) == name;
    assert name[..|name| - 1] == Vendor;
    assert StripTrailing(Vendor) == Vendor;
  }

  /**
   * The two stages together: a vendor/brand that was bought but never sold
   * keeps its output row, and cleaning that row reports 0 for every sales
   * column, GrossProfit equal to minus its purchase dollars, and no
   * ProfitMargin.
   */
  lemma UnsoldGroupsCleanToZero(purchases: seq<Purchase>, prices: seq<PurchasePrice>, sales: seq<Sale>, invoices: seq<Invoice>,
                                p: Purchase, pp: PurchasePrice, toFloat: string -> Option<real>)
    requires p in purchases && pp in prices && Joins(p, pp)
    requires forall s :: s in sales ==> s.vendorNo != p.vendorNumber || s.brand != p.brand
    requires toFloat(pp.volume).Some?
    ensures exists r :: (
      && r in CreateVendorSummary(purchases, prices, sales, invoices)
      && RowKey(r) == GroupKey(p, pp)
      && Coercible(r.volume, toFloat)
      && CleanRow(r, toFloat).totalSalesQuantity == Some(0.0)
      && CleanRow(r, toFloat).totalSalesDollars == Some(0.0)
      && CleanRow(r, toFloat).totalSalesPrice == Some(0.0)
      && CleanRow(r, toFloat).totalExciseTax == Some(0.0)
      && CleanRow(r, toFloat).metrics.value.grossProfit == -r.totalPurchaseDollars
      && CleanRow(r, toFloat).metrics.value.profitMargin == ZeroDivisor)
  {
    var out := CreateVendorSummary(purchases, prices, sales, invoices);
    UnsoldGroupsKept(purchases, prices, sales, invoices, p, pp);
    var r :| (
      && r in out
      && RowKey(r) == GroupKey(p, pp)
      && r.totalSalesQuantity == None && r.totalSalesDollars == None
      && r.totalSalesPrice == None && r.totalExciseTax == None);
    assert r.volume == Text(pp.volume);
    CleanRowUnsold(r, toFloat);
  }
}
