/**
 * The summary query of create_vendor_summary: three rollups (freight per
 * vendor, purchases per vendor/brand/price point, sales per vendor/brand),
 * two LEFT JOINs onto the purchase rollup, and ORDER BY TotalPurchaseDollars
 * DESC. Tables are sequences of rows without NULLs.
 */
module VendorSummary {
  import opened Wrappers
  import opened Relational
  import opened VendorTable

  /** A row of `purchases`. */
  datatype Purchase = Purchase(
    vendorNumber: int,
    vendorName: string,
    brand: int,
    description: string,
    purchasePrice: real,
    quantity: real,
    dollars: real)

  /** A row of `purchase_prices` (the reference price and volume of a brand). */
  datatype PurchasePrice = PurchasePrice(brand: int, price: real, volume: string)

  /** A row of `sales`. */
  datatype Sale = Sale(
    vendorNo: int,
    brand: int,
    salesDollars: real,
    salesPrice: real,
    salesQuantity: real,
    exciseTax: real)

  /** A row of `vendor_invoice`. */
  datatype Invoice = Invoice(vendorNumber: int, freight: real)

  // ---------------------------------------------------------------------
  // FreightSummary: SUM(Freight) GROUP BY VendorNumber

  datatype FreightRow = FreightRow(vendorNumber: int, freightCost: real)

  function InvoiceVendor(i: Invoice): int { i.vendorNumber }
  function InvoiceFreight(i: Invoice): real { i.freight }
  function FreightVendor(f: FreightRow): int { f.vendorNumber }
  function FreightCostOf(f: FreightRow): real { f.freightCost }

  function FreightSummary(invoices: seq<Invoice>): (fs: seq<FreightRow>)
    ensures UniqueKeys(fs, FreightVendor)
    ensures forall v :: v in Column(fs, FreightVendor) <==> v in Column(invoices, InvoiceVendor)
    ensures forall f :: f in fs ==> f.freightCost == SumWhere(invoices, InvoiceVendor, f.vendorNumber, InvoiceFreight)
  {
    var vs := Distinct(Column(invoices, InvoiceVendor));
    var fs := seq(|vs|, i requires 0 <= i < |vs| => FreightRow(vs[i], SumWhere(invoices, InvoiceVendor, vs[i], InvoiceFreight)));
    assert Column(fs, FreightVendor) == vs;
    fs
  }

  // ---------------------------------------------------------------------
  // PurchaseSummary: purchases JOIN purchase_prices ON Brand,
  // WHERE PurchasePrice > 0, SUM(Quantity), SUM(Dollars) GROUP BY the
  // seven descriptive columns

  /** A purchase line item paired with a reference row of its brand. */
  datatype JoinedPurchase = JoinedPurchase(line: Purchase, ref: PurchasePrice)

  /** The GROUP BY key of the purchase rollup. */
  datatype PurchaseKey = PurchaseKey(
    vendorNumber: int,
    vendorName: string,
    brand: int,
    description: string,
    purchasePrice: real,
    actualPrice: real,
    volume: Volume)

  datatype PurchaseRow = PurchaseRow(key: PurchaseKey, totalPurchaseQuantity: real, totalPurchaseDollars: real)

  /** The inner join's ON clause and the WHERE clause together. */
  predicate Joins(p: Purchase, pp: PurchasePrice)
  {
    p.brand == pp.brand && p.purchasePrice > 0.0
  }

  /** The group a line item falls in when joined with the reference row `pp`. */
  function GroupKey(p: Purchase, pp: PurchasePrice): PurchaseKey
  {
    PurchaseKey(p.vendorNumber, p.vendorName, p.brand, p.description, p.purchasePrice, pp.price, Text(pp.volume))
  }

  function JoinedKey(x: JoinedPurchase): PurchaseKey { GroupKey(x.line, x.ref) }
  function JoinedQuantity(x: JoinedPurchase): real { x.line.quantity }
  function JoinedDollars(x: JoinedPurchase): real { x.line.dollars }
  function PurchaseRowKey(r: PurchaseRow): PurchaseKey { r.key }
  function PurchaseRowDollars(r: PurchaseRow): real { r.totalPurchaseDollars }
  function PriceBrand(pp: PurchasePrice): int { pp.brand }

  /** `p` paired with each row of `refs`, in order. */
  function PairWith(p: Purchase, refs: seq<PurchasePrice>): (j: seq<JoinedPurchase>)
    ensures |j| == |refs|
    ensures forall i :: 0 <= i < |refs| ==> j[i] == JoinedPurchase(p, refs[i])
    ensures forall x :: multiset(j)[x] == if x.line == p then multiset(refs)[x.ref] else 0
  {
    if refs == [] then []
    else
      assert refs == [refs[0]] + refs[1..];
      [JoinedPurchase(p, refs[0])] + PairWith(p, refs[1..])
  }

  /** The reference rows of `p`'s brand, each paired with `p`. */
  function PricesFor(p: Purchase, prices: seq<PurchasePrice>): (j: seq<JoinedPurchase>)
    ensures forall x :: x in j <==> x.line == p && x.ref in prices && x.ref.brand == p.brand
  {
    PairWith(p, MatchesOf(prices, PriceBrand, p.brand))
  }

  /** A reference row listed n times gives n joined rows. */
  lemma PricesForCounts(p: Purchase, prices: seq<PurchasePrice>)
    ensures forall x :: multiset(PricesFor(p, prices))[x] == if x.line == p && x.ref.brand == p.brand then multiset(prices)[x.ref] else 0
  {
  }

  /** How often the joined row `x` occurs in the inner join with WHERE. */
  function JoinCount(purchases: seq<Purchase>, prices: seq<PurchasePrice>, x: JoinedPurchase): nat
  {
    if Joins(x.line, x.ref) then multiset(purchases)[x.line] * multiset(prices)[x.ref] else 0
  }

  /** `purchases p JOIN purchase_prices pp ON p.Brand == pp.Brand WHERE p.PurchasePrice > 0`. */
  function JoinPrices(purchases: seq<Purchase>, prices: seq<PurchasePrice>): (j: seq<JoinedPurchase>)
    ensures forall x :: x in j <==> x.line in purchases && x.ref in prices && Joins(x.line, x.ref)
  {
    if purchases == [] then []
    else
      var p := purchases[0];
      assert forall q :: q in purchases <==> q == p || q in purchases[1..];
      (if p.purchasePrice > 0.0 then PricesFor(p, prices) else []) + JoinPrices(purchases[1..], prices)
  }

  /**
   * The join keeps multiplicities: each pair that passes ON and WHERE occurs
   * once per copy of the line item times once per copy of the reference row.
   */
  lemma {:induction false} JoinPricesCounts(purchases: seq<Purchase>, prices: seq<PurchasePrice>)
    ensures forall x :: multiset(JoinPrices(purchases, prices))[x] == JoinCount(purchases, prices, x)
  {
    if purchases != [] {
      var p := purchases[0];
      var head := if p.purchasePrice > 0.0 then PricesFor(p, prices) else [];
      var tail := JoinPrices(purchases[1..], prices);
      assert JoinPrices(purchases, prices) == head + tail;
      JoinPricesCounts(purchases[1..], prices);
      PricesForCounts(p, prices);
      forall x ensures multiset(head + tail)[x] == JoinCount(purchases, prices, x) {
        assert multiset(head)[x] == if x.line == p && Joins(x.line, x.ref) then multiset(prices)[x.ref] else 0;
        JoinCountStep(purchases, prices, head, tail, x);
      }
    }
  }

  /** GROUP BY the seven descriptive columns, with SUM(Quantity) and SUM(Dollars), over joined line items. */
  function RollupPurchases(joined: seq<JoinedPurchase>): (ps: seq<PurchaseRow>)
    ensures UniqueKeys(ps, PurchaseRowKey)
    ensures forall k :: k in Column(ps, PurchaseRowKey) <==> k in Column(joined, JoinedKey)
    ensures forall r :: r in ps ==>
      && r.totalPurchaseQuantity == SumWhere(joined, JoinedKey, r.key, JoinedQuantity)
      && r.totalPurchaseDollars == SumWhere(joined, JoinedKey, r.key, JoinedDollars)
  {
    var ks := Distinct(Column(joined, JoinedKey));
    var ps := seq(|ks|, i requires 0 <= i < |ks| =>
      PurchaseRow(ks[i], SumWhere(joined, JoinedKey, ks[i], JoinedQuantity), SumWhere(joined, JoinedKey, ks[i], JoinedDollars)));
    assert Column(ps, PurchaseRowKey) == ks;
    forall r | r in ps
      ensures r.totalPurchaseQuantity == SumWhere(joined, JoinedKey, r.key, JoinedQuantity)
      ensures r.totalPurchaseDollars == SumWhere(joined, JoinedKey, r.key, JoinedDollars)
    {
      var i :| 0 <= i < |ps| && ps[i] == r;
    }
    ps
  }

  /** The purchase rollup: one row per group of the joined line items, with the group's totals. */
  function PurchaseSummary(purchases: seq<Purchase>, prices: seq<PurchasePrice>): (ps: seq<PurchaseRow>)
    ensures UniqueKeys(ps, PurchaseRowKey)
    ensures forall k :: k in Column(ps, PurchaseRowKey) <==> k in Column(JoinPrices(purchases, prices), JoinedKey)
    ensures forall r :: r in ps ==>
      && r.totalPurchaseQuantity == SumWhere(JoinPrices(purchases, prices), JoinedKey, r.key, JoinedQuantity)
      && r.totalPurchaseDollars == SumWhere(JoinPrices(purchases, prices), JoinedKey, r.key, JoinedDollars)
  {
    RollupPurchases(JoinPrices(purchases, prices))
  }

  /** Adding one line item in front adds its own pairs to each count. */
  lemma JoinCountStep(purchases: seq<Purchase>, prices: seq<PurchasePrice>,
                      head: seq<JoinedPurchase>, tail: seq<JoinedPurchase>, x: JoinedPurchase)
    requires purchases != []
    requires multiset(head)[x] == if x.line == purchases[0] && Joins(x.line, x.ref) then multiset(prices)[x.ref] else 0
    requires multiset(tail)[x] == JoinCount(purchases[1..], prices, x)
    ensures multiset(head + tail)[x] == JoinCount(purchases, prices, x)
  {
    var p := purchases[0];
    var n := multiset(purchases[1..])[x.line];
    var c := multiset(prices)[x.ref];
    var m := multiset(purchases)[x.line];
    assert purchases == [p] + purchases[1..];
    assert multiset(purchases) == multiset{p} + multiset(purchases[1..]);
    assert multiset(head + tail)[x] == multiset(head)[x] + multiset(tail)[x];
    if x.line == p {
      assert m == n + 1;
      OneMore(n, c);
    } else {
      assert m == n;
    }
  }

  lemma OneMore(n: nat, c: nat)
    ensures (n + 1) * c == n * c + c
  {
  }

  // ---------------------------------------------------------------------
  // SalesSummary: four SUMs GROUP BY VendorNo, Brand

  datatype SalesKey = SalesKey(vendorNo: int, brand: int)

  datatype SalesRow = SalesRow(
    key: SalesKey,
    totalSalesDollars: real,
    totalSalesPrice: real,
    totalSalesQuantity: real,
    totalExciseTax: real)

  function SaleKey(s: Sale): SalesKey { SalesKey(s.vendorNo, s.brand) }
  function SaleDollars(s: Sale): real { s.salesDollars }
  function SalePrice(s: Sale): real { s.salesPrice }
  function SaleQuantity(s: Sale): real { s.salesQuantity }
  function SaleExciseTax(s: Sale): real { s.exciseTax }
  function SalesRowKey(r: SalesRow): SalesKey { r.key }
  function SalesRowDollars(r: SalesRow): real { r.totalSalesDollars }

  function SalesSummary(sales: seq<Sale>): (ss: seq<SalesRow>)
    ensures UniqueKeys(ss, SalesRowKey)
    ensures forall k :: k in Column(ss, SalesRowKey) <==> k in Column(sales, SaleKey)
    ensures forall r :: r in ss ==>
      && r.totalSalesDollars == SumWhere(sales, SaleKey, r.key, SaleDollars)
      && r.totalSalesPrice == SumWhere(sales, SaleKey, r.key, SalePrice)
      && r.totalSalesQuantity == SumWhere(sales, SaleKey, r.key, SaleQuantity)
      && r.totalExciseTax == SumWhere(sales, SaleKey, r.key, SaleExciseTax)
  {
    var ks := Distinct(Column(sales, SaleKey));
    var ss := seq(|ks|, i requires 0 <= i < |ks| =>
      SalesRow(ks[i],
        SumWhere(sales, SaleKey, ks[i], SaleDollars),
        SumWhere(sales, SaleKey, ks[i], SalePrice),
        SumWhere(sales, SaleKey, ks[i], SaleQuantity),
        SumWhere(sales, SaleKey, ks[i], SaleExciseTax)));
    assert Column(ss, SalesRowKey) == ks;
    ss
  }

  // ---------------------------------------------------------------------
  // The final SELECT: two LEFT JOINs and ORDER BY

  function PurchaseSalesKey(r: PurchaseRow): SalesKey { SalesKey(r.key.vendorNumber, r.key.brand) }
  function WithSalesVendor(x: (PurchaseRow, Option<SalesRow>)): int { x.0.key.vendorNumber }

  /** The selected columns of one joined row; unmatched right sides give None. */
  function Assemble(x: ((PurchaseRow, Option<SalesRow>), Option<FreightRow>)): (r: VendorRow)
    ensures RowKey(r) == x.0.0.key
    ensures r.totalPurchaseQuantity == x.0.0.totalPurchaseQuantity && r.totalPurchaseDollars == x.0.0.totalPurchaseDollars
    ensures r.totalSalesDollars.None? <==> x.0.1.None?
    ensures x.0.1.Some? ==>
      && r.totalSalesQuantity == Some(x.0.1.value.totalSalesQuantity)
      && r.totalSalesDollars == Some(x.0.1.value.totalSalesDollars)
      && r.totalSalesPrice == Some(x.0.1.value.totalSalesPrice)
      && r.totalExciseTax == Some(x.0.1.value.totalExciseTax)
    ensures x.0.1.None? ==> r.totalSalesQuantity.None? && r.totalSalesPrice.None? && r.totalExciseTax.None?
    ensures r.freightCost.None? <==> x.1.None?
    ensures x.1.Some? ==> r.freightCost == Some(x.1.value.freightCost)
    ensures r.metrics.None?
  {
    var ps := x.0.0;
    var ss := x.0.1;
    var fs := x.1;
    VendorRow(
      ps.key.vendorNumber, ps.key.vendorName, ps.key.brand, ps.key.description,
      ps.key.purchasePrice, ps.key.actualPrice, ps.key.volume,
      if ss.Some? then Some(ss.value.totalSalesQuantity) else None,
      if ss.Some? then Some(ss.value.totalSalesDollars) else None,
      if ss.Some? then Some(ss.value.totalSalesPrice) else None,
      if ss.Some? then Some(ss.value.totalExciseTax) else None,
      ps.totalPurchaseQuantity, ps.totalPurchaseDollars,
      if fs.Some? then Some(fs.value.freightCost) else None,
      None)
  }

  /**
   * The joined rows before ORDER BY: the i-th is the i-th purchase-rollup
   * row, with the sales rollup row of its vendor and brand and the freight
   * rollup row of its vendor where those exist; neither LEFT JOIN drops or
   * repeats a row.
   */
  function Unordered(purchases: seq<Purchase>, prices: seq<PurchasePrice>, sales: seq<Sale>, invoices: seq<Invoice>): (u: seq<VendorRow>)
    ensures |u| == |PurchaseSummary(purchases, prices)|
    ensures forall i :: 0 <= i < |PurchaseSummary(purchases, prices)| ==>
      var p := PurchaseSummary(purchases, prices)[i];
      u[i] == Assemble(((p, Lookup(SalesSummary(sales), SalesRowKey, PurchaseSalesKey(p))),
                        Lookup(FreightSummary(invoices), FreightVendor, p.key.vendorNumber)))
  {
    var ps := PurchaseSummary(purchases, prices);
    var withSales := LeftJoin(ps, SalesSummary(sales), PurchaseSalesKey, SalesRowKey);
    LeftJoinOneToOne(ps, SalesSummary(sales), PurchaseSalesKey, SalesRowKey);
    var withFreight := LeftJoin(withSales, FreightSummary(invoices), WithSalesVendor, FreightVendor);
    LeftJoinOneToOne(withSales, FreightSummary(invoices), WithSalesVendor, FreightVendor);
    Column(withFreight, Assemble)
  }

  function RowPurchaseDollars(r: VendorRow): real { r.totalPurchaseDollars }

  /** The grouping columns of an output row. */
  function RowKey(r: VendorRow): PurchaseKey
  {
    PurchaseKey(r.vendorNumber, r.vendorName, r.brand, r.description, r.purchasePrice, r.actualPrice, r.volume)
  }

  /**
   * create_vendor_summary: the joined rows ordered by TotalPurchaseDollars,
   * largest first; one row per purchase-rollup row.
   */
  function CreateVendorSummary(purchases: seq<Purchase>, prices: seq<PurchasePrice>, sales: seq<Sale>, invoices: seq<Invoice>): (out: seq<VendorRow>)
    ensures NonIncreasing(out, RowPurchaseDollars)
    ensures multiset(out) == multiset(Unordered(purchases, prices, sales, invoices))
    ensures |out| == |PurchaseSummary(purchases, prices)|
  {
    SortDesc(Unordered(purchases, prices, sales, invoices), RowPurchaseDollars)
  }

  // ---------------------------------------------------------------------
  // What each output row says about the source tables

  /**
   * The output row `r` is the group RowKey(r) of the joined purchases, with
   * its purchase totals, the sales totals of its vendor and brand (None when
   * that pair was never sold), and the freight total of its vendor (None when
   * the vendor has no invoice).
   */
  ghost predicate RowFromSources(r: VendorRow, purchases: seq<Purchase>, prices: seq<PurchasePrice>, sales: seq<Sale>, invoices: seq<Invoice>)
  {
    var joined := JoinPrices(purchases, prices);
    var sk := SalesKey(r.vendorNumber, r.brand);
    && RowKey(r) in Column(joined, JoinedKey)
    && r.totalPurchaseQuantity == SumWhere(joined, JoinedKey, RowKey(r), JoinedQuantity)
    && r.totalPurchaseDollars == SumWhere(joined, JoinedKey, RowKey(r), JoinedDollars)
    && r.totalSalesQuantity == GroupTotal(sales, SaleKey, sk, SaleQuantity)
    && r.totalSalesDollars == GroupTotal(sales, SaleKey, sk, SaleDollars)
    && r.totalSalesPrice == GroupTotal(sales, SaleKey, sk, SalePrice)
    && r.totalExciseTax == GroupTotal(sales, SaleKey, sk, SaleExciseTax)
    && r.freightCost == GroupTotal(invoices, InvoiceVendor, r.vendorNumber, InvoiceFreight)
    && r.metrics == None
  }

  lemma SalesMatch(sales: seq<Sale>, k: SalesKey)
    ensures var o := Lookup(SalesSummary(sales), SalesRowKey, k);
      && (o.None? <==> k !in Column(sales, SaleKey))
      && (o.Some? ==>
        && GroupTotal(sales, SaleKey, k, SaleQuantity) == Some(o.value.totalSalesQuantity)
        && GroupTotal(sales, SaleKey, k, SaleDollars) == Some(o.value.totalSalesDollars)
        && GroupTotal(sales, SaleKey, k, SalePrice) == Some(o.value.totalSalesPrice)
        && GroupTotal(sales, SaleKey, k, SaleExciseTax) == Some(o.value.totalExciseTax))
  {
    var ss := SalesSummary(sales);
    var o := Lookup(ss, SalesRowKey, k);
    if o.Some? {
      var i :| 0 <= i < |ss| && ss[i] == o.value;
      assert Column(ss, SalesRowKey)[i] == k;
    }
  }

  lemma FreightMatch(invoices: seq<Invoice>, v: int)
    ensures var o := Lookup(FreightSummary(invoices), FreightVendor, v);
      && (o.None? <==> v !in Column(invoices, InvoiceVendor))
      && (o.Some? ==> GroupTotal(invoices, InvoiceVendor, v, InvoiceFreight) == Some(o.value.freightCost))
  {
    var fs := FreightSummary(invoices);
    var o := Lookup(fs, FreightVendor, v);
    if o.Some? {
      var i :| 0 <= i < |fs| && fs[i] == o.value;
      assert Column(fs, FreightVendor)[i] == v;
    }
  }

  /** The i-th joined row before ORDER BY satisfies RowFromSources and has the i-th purchase group's key. */
  lemma UnorderedRowFromSources(purchases: seq<Purchase>, prices: seq<PurchasePrice>, sales: seq<Sale>, invoices: seq<Invoice>, i: nat)
    requires i < |PurchaseSummary(purchases, prices)|
    ensures i < |Unordered(purchases, prices, sales, invoices)|
    ensures RowKey(Unordered(purchases, prices, sales, invoices)[i]) == PurchaseSummary(purchases, prices)[i].key
    ensures RowFromSources(Unordered(purchases, prices, sales, invoices)[i], purchases, prices, sales, invoices)
  {
    var ps := PurchaseSummary(purchases, prices);
    var p := ps[i];
    var r := Unordered(purchases, prices, sales, invoices)[i];
    SalesMatch(sales, PurchaseSalesKey(p));
    FreightMatch(invoices, p.key.vendorNumber);
    assert p in ps;
    assert Column(ps, PurchaseRowKey)[i] == p.key;
  }

  /** Every output row is accounted for by the source tables as RowFromSources states. */
  lemma {:induction false} OutputRowsFromSources(purchases: seq<Purchase>, prices: seq<PurchasePrice>, sales: seq<Sale>, invoices: seq<Invoice>)
    ensures forall r :: r in CreateVendorSummary(purchases, prices, sales, invoices) ==>
      RowFromSources(r, purchases, prices, sales, invoices)
  {
    var out := CreateVendorSummary(purchases, prices, sales, invoices);
    var u := Unordered(purchases, prices, sales, invoices);
    forall r | r in out ensures RowFromSources(r, purchases, prices, sales, invoices) {
      var i := OutputRowIndex(purchases, prices, sales, invoices, r);
      UnorderedRowFromSources(purchases, prices, sales, invoices, i);
    }
  }

  /** Every output row is one of the joined rows before ordering. */
  lemma OutputRowIndex(purchases: seq<Purchase>, prices: seq<PurchasePrice>, sales: seq<Sale>, invoices: seq<Invoice>, r: VendorRow)
    returns (i: nat)
    requires r in CreateVendorSummary(purchases, prices, sales, invoices)
    ensures i < |PurchaseSummary(purchases, prices)|
    ensures Unordered(purchases, prices, sales, invoices)[i] == r
  {
    i := PermutationIndex(CreateVendorSummary(purchases, prices, sales, invoices), Unordered(purchases, prices, sales, invoices), r);
  }

  /**
   * Inner-join and WHERE exclusion: every output row is the group of some
   * line item with PurchasePrice > 0 whose brand has a purchase_prices row;
   * so a brand absent from purchase_prices never appears.
   */
  lemma InnerJoinExclusion(purchases: seq<Purchase>, prices: seq<PurchasePrice>, sales: seq<Sale>, invoices: seq<Invoice>)
    ensures forall r :: r in CreateVendorSummary(purchases, prices, sales, invoices) ==>
      exists p, pp :: p in purchases && pp in prices && Joins(p, pp) && RowKey(r) == GroupKey(p, pp)
    ensures forall r :: r in CreateVendorSummary(purchases, prices, sales, invoices) ==>
      r.purchasePrice > 0.0 && r.brand in Column(prices, PriceBrand)
  {
    OutputRowsFromSources(purchases, prices, sales, invoices);
    var joined := JoinPrices(purchases, prices);
    forall r | r in CreateVendorSummary(purchases, prices, sales, invoices)
      ensures exists p, pp :: p in purchases && pp in prices && Joins(p, pp) && RowKey(r) == GroupKey(p, pp)
      ensures r.purchasePrice > 0.0 && r.brand in Column(prices, PriceBrand)
    {
      var i :| 0 <= i < |joined| && Column(joined, JoinedKey)[i] == RowKey(r);
      var x := joined[i];
      assert x in joined;
      var j :| 0 <= j < |prices| && prices[j] == x.ref;
      assert Column(prices, PriceBrand)[j] == r.brand;
    }
  }

  /**
   * Grain completeness: every line item with PurchasePrice > 0 and a
   * reference row of its brand has an output row for its group, whether or
   * not its vendor and brand were ever sold or invoiced.
   */
  lemma GrainCompleteness(purchases: seq<Purchase>, prices: seq<PurchasePrice>, sales: seq<Sale>, invoices: seq<Invoice>)
    ensures forall p, pp :: p in purchases && pp in prices && Joins(p, pp) ==>
      exists r :: r in CreateVendorSummary(purchases, prices, sales, invoices) && RowKey(r) == GroupKey(p, pp)
  {
    forall p, pp | p in purchases && pp in prices && Joins(p, pp)
      ensures exists r :: r in CreateVendorSummary(purchases, prices, sales, invoices) && RowKey(r) == GroupKey(p, pp)
    {
      var i := SummaryHasGroup(purchases, prices, p, pp);
      UnorderedRowFromSources(purchases, prices, sales, invoices, i);
      UnorderedRowInOutput(purchases, prices, sales, invoices, i);
    }
  }

  lemma SummaryHasGroup(purchases: seq<Purchase>, prices: seq<PurchasePrice>, p: Purchase, pp: PurchasePrice) returns (i: nat)
    requires p in purchases && pp in prices && Joins(p, pp)
    ensures i < |PurchaseSummary(purchases, prices)| && PurchaseSummary(purchases, prices)[i].key == GroupKey(p, pp)
  {
    var ps := PurchaseSummary(purchases, prices);
    var joined := JoinPrices(purchases, prices);
    var x := JoinedPurchase(p, pp);
    assert x in joined;
    var j :| 0 <= j < |joined| && joined[j] == x;
    var cj := Column(joined, JoinedKey);
    assert cj[j] == GroupKey(p, pp);
    assert GroupKey(p, pp) in cj;
    var cp := Column(ps, PurchaseRowKey);
    assert GroupKey(p, pp) in cp;
    i :| 0 <= i < |ps| && cp[i] == GroupKey(p, pp);
  }

  lemma UnorderedRowInOutput(purchases: seq<Purchase>, prices: seq<PurchasePrice>, sales: seq<Sale>, invoices: seq<Invoice>, i: nat)
    requires i < |Unordered(purchases, prices, sales, invoices)|
    ensures Unordered(purchases, prices, sales, invoices)[i] in CreateVendorSummary(purchases, prices, sales, invoices)
  {
    var u := Unordered(purchases, prices, sales, invoices);
    assert u[i] in multiset(u);
    assert u[i] in multiset(CreateVendorSummary(purchases, prices, sales, invoices));
  }

  /** One row per group: no two output rows share all seven grouping columns. */
  lemma OneRowPerGroup(purchases: seq<Purchase>, prices: seq<PurchasePrice>, sales: seq<Sale>, invoices: seq<Invoice>)
    ensures UniqueKeys(CreateVendorSummary(purchases, prices, sales, invoices), RowKey)
  {
    var u := Unordered(purchases, prices, sales, invoices);
    var ps := PurchaseSummary(purchases, prices);
    forall i, j | 0 <= i < j < |u| ensures RowKey(u[i]) != RowKey(u[j]) {
      UnorderedRowFromSources(purchases, prices, sales, invoices, i);
      UnorderedRowFromSources(purchases, prices, sales, invoices, j);
    }
    UniqueKeysPermutation(u, CreateVendorSummary(purchases, prices, sales, invoices), RowKey);
  }

  /**
   * Freight is vendor-scoped: FreightCost is the same on every output row of
   * a vendor, whatever the brand or price point.
   */
  lemma FreightIsVendorScoped(purchases: seq<Purchase>, prices: seq<PurchasePrice>, sales: seq<Sale>, invoices: seq<Invoice>)
    ensures var out := CreateVendorSummary(purchases, prices, sales, invoices);
      forall i, j :: 0 <= i < |out| && 0 <= j < |out| && out[i].vendorNumber == out[j].vendorNumber ==>
        out[i].freightCost == out[j].freightCost
  {
    var out := CreateVendorSummary(purchases, prices, sales, invoices);
    OutputRowsFromSources(purchases, prices, sales, invoices);
    forall i, j | 0 <= i < |out| && 0 <= j < |out| && out[i].vendorNumber == out[j].vendorNumber
      ensures out[i].freightCost == out[j].freightCost
    {
      assert out[i] in out && out[j] in out;
    }
  }

  /**
   * A vendor/brand that was bought but never sold keeps its rows, with NULL
   * sales columns (which the cleaning step turns into 0).
   */
  lemma UnsoldGroupsKept(purchases: seq<Purchase>, prices: seq<PurchasePrice>, sales: seq<Sale>, invoices: seq<Invoice>, p: Purchase, pp: PurchasePrice)
    requires p in purchases && pp in prices && Joins(p, pp)
    requires forall s :: s in sales ==> s.vendorNo != p.vendorNumber || s.brand != p.brand
    ensures exists r :: (
      && r in CreateVendorSummary(purchases, prices, sales, invoices)
      && RowKey(r) == GroupKey(p, pp)
      && r.totalSalesQuantity == None && r.totalSalesDollars == None
      && r.totalSalesPrice == None && r.totalExciseTax == None)
  {
    GrainCompleteness(purchases, prices, sales, invoices);
    OutputRowsFromSources(purchases, prices, sales, invoices);
    var r :| r in CreateVendorSummary(purchases, prices, sales, invoices) && RowKey(r) == GroupKey(p, pp);
    assert RowFromSources(r, purchases, prices, sales, invoices);
  }

  /**
   * Price points are kept apart: two line items of the same vendor and brand
   * at different purchase prices land in two different output rows.
   */
  lemma PricePointsKeptApart(purchases: seq<Purchase>, prices: seq<PurchasePrice>, sales: seq<Sale>, invoices: seq<Invoice>,
                             p1: Purchase, p2: Purchase, pp: PurchasePrice)
    requires p1 in purchases && p2 in purchases && pp in prices && Joins(p1, pp) && Joins(p2, pp)
    requires p1.purchasePrice != p2.purchasePrice
    ensures var out := CreateVendorSummary(purchases, prices, sales, invoices);
      exists i, j :: 0 <= i < |out| && 0 <= j < |out| && i != j
        && out[i].purchasePrice == p1.purchasePrice && out[j].purchasePrice == p2.purchasePrice
        && out[i].brand == out[j].brand == pp.brand
  {
    var out := CreateVendorSummary(purchases, prices, sales, invoices);
    var i := GroupIndex(purchases, prices, sales, invoices, p1, pp);
    var j := GroupIndex(purchases, prices, sales, invoices, p2, pp);
    assert out[i].purchasePrice != out[j].purchasePrice;
  }

  /** The position in the output of the group of a joinable line item. */
  lemma GroupIndex(purchases: seq<Purchase>, prices: seq<PurchasePrice>, sales: seq<Sale>, invoices: seq<Invoice>,
                   p: Purchase, pp: PurchasePrice) returns (i: nat)
    requires p in purchases && pp in prices && Joins(p, pp)
    ensures i < |CreateVendorSummary(purchases, prices, sales, invoices)|
    ensures RowKey(CreateVendorSummary(purchases, prices, sales, invoices)[i]) == GroupKey(p, pp)
  {
    var out := CreateVendorSummary(purchases, prices, sales, invoices);
    var u := Unordered(purchases, prices, sales, invoices);
    var k := SummaryHasGroup(purchases, prices, p, pp);
    UnorderedRowFromSources(purchases, prices, sales, invoices, k);
    UnorderedRowInOutput(purchases, prices, sales, invoices, k);
    i :| 0 <= i < |out| && out[i] == u[k];
  }

  // ---------------------------------------------------------------------
  // Group totals in terms of the line items

  function LineQuantity(p: Purchase): real { p.quantity }
  function LineDollars(p: Purchase): real { p.dollars }

  /**
   * SUM(val) over the purchase line items that fall in group `k` when each is
   * joined with the first reference row of its brand, and only those with
   * PurchasePrice > 0.
   */
  function LineItemSum(purchases: seq<Purchase>, prices: seq<PurchasePrice>, k: PurchaseKey, val: Purchase -> real): real
  {
    if purchases == [] then 0.0
    else
      var p := purchases[0];
      var ref := Lookup(prices, PriceBrand, p.brand);
      (if p.purchasePrice > 0.0 && ref.Some? && GroupKey(p, ref.value) == k then val(p) else 0.0)
      + LineItemSum(purchases[1..], prices, k, val)
  }

  lemma PricesForUniqueBrand(p: Purchase, prices: seq<PurchasePrice>)
    requires UniqueKeys(prices, PriceBrand)
    ensures var ref := Lookup(prices, PriceBrand, p.brand);
      PricesFor(p, prices) == if ref.Some? then [JoinedPurchase(p, ref.value)] else []
  {
    MatchesOfUniqueKeys(prices, PriceBrand, p.brand);
  }

  lemma {:induction false} JoinedSumIsLineItemSum(purchases: seq<Purchase>, prices: seq<PurchasePrice>, k: PurchaseKey,
                                                  jval: JoinedPurchase -> real, lval: Purchase -> real)
    requires UniqueKeys(prices, PriceBrand)
    requires forall x :: jval(x) == lval(x.line)
    ensures SumWhere(JoinPrices(purchases, prices), JoinedKey, k, jval) == LineItemSum(purchases, prices, k, lval)
  {
    if purchases != [] {
      var p := purchases[0];
      var head := if p.purchasePrice > 0.0 then PricesFor(p, prices) else [];
      var tail := JoinPrices(purchases[1..], prices);
      assert JoinPrices(purchases, prices) == head + tail;
      SumWhereAppend(head, tail, JoinedKey, k, jval);
      HeadSumIsLineItem(p, prices, head, k, jval, lval);
      JoinedSumIsLineItemSum(purchases[1..], prices, k, jval, lval);
    }
  }

  /** With one reference row per Brand, the joined rows of one line item sum to its own amount in its group. */
  lemma HeadSumIsLineItem(p: Purchase, prices: seq<PurchasePrice>, head: seq<JoinedPurchase>, k: PurchaseKey,
                          jval: JoinedPurchase -> real, lval: Purchase -> real)
    requires UniqueKeys(prices, PriceBrand)
    requires forall x :: jval(x) == lval(x.line)
    requires head == if p.purchasePrice > 0.0 then PricesFor(p, prices) else []
    ensures var ref := Lookup(prices, PriceBrand, p.brand);
      SumWhere(head, JoinedKey, k, jval)
        == if p.purchasePrice > 0.0 && ref.Some? && GroupKey(p, ref.value) == k then lval(p) else 0.0
  {
    PricesForUniqueBrand(p, prices);
    if head != [] {
      assert head[1..] == [];
    }
  }

  /**
   * When purchase_prices has one row per Brand, TotalPurchaseQuantity and
   * TotalPurchaseDollars of every output row are the sums of Quantity and
   * Dollars over exactly the line items of its group.
   */
  lemma PurchaseTotalsFromLineItems(purchases: seq<Purchase>, prices: seq<PurchasePrice>, sales: seq<Sale>, invoices: seq<Invoice>)
    requires UniqueKeys(prices, PriceBrand)
    ensures forall r :: r in CreateVendorSummary(purchases, prices, sales, invoices) ==>
      && r.totalPurchaseQuantity == LineItemSum(purchases, prices, RowKey(r), LineQuantity)
      && r.totalPurchaseDollars == LineItemSum(purchases, prices, RowKey(r), LineDollars)
  {
    OutputRowsFromSources(purchases, prices, sales, invoices);
    forall r | r in CreateVendorSummary(purchases, prices, sales, invoices)
      ensures r.totalPurchaseQuantity == LineItemSum(purchases, prices, RowKey(r), LineQuantity)
      ensures r.totalPurchaseDollars == LineItemSum(purchases, prices, RowKey(r), LineDollars)
    {
      JoinedSumIsLineItemSum(purchases, prices, RowKey(r), JoinedQuantity, LineQuantity);
      JoinedSumIsLineItemSum(purchases, prices, RowKey(r), JoinedDollars, LineDollars);
    }
  }

  // ---------------------------------------------------------------------
  // Each rollup accounts for every line item exactly once

  /** The freight rollup's FreightCost column adds up to all the Freight of vendor_invoice. */
  lemma FreightConserved(invoices: seq<Invoice>)
    ensures Sum(FreightSummary(invoices), FreightCostOf) == Sum(invoices, InvoiceFreight)
  {
    var vs := Distinct(Column(invoices, InvoiceVendor));
    var fs := FreightSummary(invoices);
    SumOfRollup(fs, FreightCostOf, vs, invoices, InvoiceVendor, InvoiceFreight);
    forall x | x in invoices ensures InvoiceVendor(x) in vs {
      var i :| 0 <= i < |invoices| && invoices[i] == x;
      assert Column(invoices, InvoiceVendor)[i] == InvoiceVendor(x);
    }
    GroupSumsAddUp(vs, invoices, InvoiceVendor, InvoiceFreight);
  }

  /** The purchase rollup's TotalPurchaseDollars column adds up to the Dollars of all joined, positive-price line items. */
  lemma PurchaseDollarsConserved(purchases: seq<Purchase>, prices: seq<PurchasePrice>)
    ensures Sum(PurchaseSummary(purchases, prices), PurchaseRowDollars) == Sum(JoinPrices(purchases, prices), JoinedDollars)
  {
    var joined := JoinPrices(purchases, prices);
    var ks := Distinct(Column(joined, JoinedKey));
    var ps := PurchaseSummary(purchases, prices);
    SumOfRollup(ps, PurchaseRowDollars, ks, joined, JoinedKey, JoinedDollars);
    forall x | x in joined ensures JoinedKey(x) in ks {
      var i :| 0 <= i < |joined| && joined[i] == x;
      assert Column(joined, JoinedKey)[i] == JoinedKey(x);
    }
    GroupSumsAddUp(ks, joined, JoinedKey, JoinedDollars);
  }

  /** The sales rollup's TotalSalesDollars column adds up to all the SalesDollars of sales. */
  lemma SalesDollarsConserved(sales: seq<Sale>)
    ensures Sum(SalesSummary(sales), SalesRowDollars) == Sum(sales, SaleDollars)
  {
    var ks := Distinct(Column(sales, SaleKey));
    var ss := SalesSummary(sales);
    SumOfRollup(ss, SalesRowDollars, ks, sales, SaleKey, SaleDollars);
    forall x | x in sales ensures SaleKey(x) in ks {
      var i :| 0 <= i < |sales| && sales[i] == x;
      assert Column(sales, SaleKey)[i] == SaleKey(x);
    }
    GroupSumsAddUp(ks, sales, SaleKey, SaleDollars);
  }
}
