/**
 * clean_data: converts the Volume column to float, fills missing values with
 * 0, strips surrounding whitespace from VendorName and Description, and adds
 * the four derived metric columns. The table is an array of rows updated in
 * place, one pass per column operation.
 */
module Cleaning {
  import opened Wrappers
  import opened VendorTable

  // ---------------------------------------------------------------------
  // Volume.astype('float')

  /** The conversion error pandas raises for text that is not a number. */
  datatype DataTypeError = NotNumeric(text: string)

  /**
   * The Volume cell converts to float: it already is a number, or it is text
   * that `toFloat` (the string-to-float parser, not modelled) accepts.
   */
  predicate Coercible(v: Volume, toFloat: string -> Option<real>)
  {
    v.Number? || toFloat(v.raw).Some?
  }

  /** The float value of a convertible Volume cell. */
  function AsFloat(v: Volume, toFloat: string -> Option<real>): (x: real)
    requires Coercible(v, toFloat)
    ensures v.Number? ==> x == v.value
    ensures v.Text? ==> toFloat(v.raw) == Some(x)
  {
    if v.Number? then v.value else toFloat(v.raw).value
  }

  function WithFloatVolume(r: VendorRow, toFloat: string -> Option<real>): VendorRow
    requires Coercible(r.volume, toFloat)
  {
    r.(volume := Number(AsFloat(r.volume, toFloat)))
  }

  // ---------------------------------------------------------------------
  // fillna(0)

  function FillZero(o: Option<real>): Option<real>
  {
    if o.None? then Some(0.0) else o
  }

  /** The amount a nullable column holds after fillna(0). */
  function Filled(o: Option<real>): real
  {
    if o.Some? then o.value else 0.0
  }

  /** No nullable column of the row is missing. */
  predicate NoMissing(r: VendorRow)
  {
    && r.totalSalesQuantity.Some?
    && r.totalSalesDollars.Some?
    && r.totalSalesPrice.Some?
    && r.totalExciseTax.Some?
    && r.freightCost.Some?
  }

  /**
   * fillna(0): the row with every missing value replaced by 0. Nothing is
   * missing afterwards, a present value is kept, and the other columns are
   * unchanged.
   */
  function FillMissing(r: VendorRow): (f: VendorRow)
    ensures NoMissing(f)
    ensures && f.totalSalesQuantity == Some(Filled(r.totalSalesQuantity))
            && f.totalSalesDollars == Some(Filled(r.totalSalesDollars))
            && f.totalSalesPrice == Some(Filled(r.totalSalesPrice))
            && f.totalExciseTax == Some(Filled(r.totalExciseTax))
            && f.freightCost == Some(Filled(r.freightCost))
    ensures f == r.(totalSalesQuantity := f.totalSalesQuantity, totalSalesDollars := f.totalSalesDollars,
                    totalSalesPrice := f.totalSalesPrice, totalExciseTax := f.totalExciseTax, freightCost := f.freightCost)
  {
    r.(totalSalesQuantity := FillZero(r.totalSalesQuantity),
       totalSalesDollars := FillZero(r.totalSalesDollars),
       totalSalesPrice := FillZero(r.totalSalesPrice),
       totalExciseTax := FillZero(r.totalExciseTax),
       freightCost := FillZero(r.freightCost))
  }

  /** A row with nothing missing is left as it is, so filling twice is filling once. */
  lemma FillMissingIdempotent(r: VendorRow)
    ensures NoMissing(r) ==> FillMissing(r) == r
    ensures FillMissing(FillMissing(r)) == FillMissing(r)
  {
  }

  // ---------------------------------------------------------------------
  // str.strip()

  /** Python's str.isspace for one character. */
  predicate IsSpace(c: char)
  {
    var n := c as int;
    || 9 <= n <= 13 || 28 <= n <= 32
    || n == 0x85 || n == 0xA0 || n == 0x1680
    || 0x2000 <= n <= 0x200A
    || n == 0x2028 || n == 0x2029 || n == 0x202F || n == 0x205F || n == 0x3000
  }

  /** Neither the first nor the last character is whitespace. */
  predicate Trimmed(s: string)
  {
    s == [] || (!IsSpace(s[0]) && !IsSpace(s[|s| - 1]))
  }

  /** `s` without its leading whitespace. */
  function StripLeading(s: string): string
  {
    if s != [] && IsSpace(s[0]) then StripLeading(s[1..]) else s
  }

  /** StripLeading drops a prefix of whitespace and stops at the first other character. */
  lemma {:induction false} StripLeadingSpec(s: string)
    ensures var t := StripLeading(s);
      && |t| <= |s| && t == s[|s| - |t|..]
      && (forall k :: 0 <= k < |s| - |t| ==> IsSpace(s[k]))
      && (t == [] || !IsSpace(t[0]))
  {
    if s != [] && IsSpace(s[0]) {
      StripLeadingSpec(s[1..]);
      var t := StripLeading(s);
      forall k | 0 < k < |s| - |t| ensures IsSpace(s[k]) {
        assert s[k] == s[1..][k - 1];
      }
    }
  }

  /** `s` without its trailing whitespace. */
  function StripTrailing(s: string): string
  {
    if s != [] && IsSpace(s[|s| - 1]) then StripTrailing(s[..|s| - 1]) else s
  }

  /** StripTrailing drops a suffix of whitespace and stops at the last other character. */
  lemma {:induction false} StripTrailingSpec(s: string)
    ensures var t := StripTrailing(s);
      && |t| <= |s| && t == s[..|t|]
      && (forall k :: |t| <= k < |s| ==> IsSpace(s[k]))
      && (t == [] || !IsSpace(t[|t| - 1]))
  {
    if s != [] && IsSpace(s[|s| - 1]) {
      StripTrailingSpec(s[..|s| - 1]);
    }
  }

  /** str.strip(): `s` without whitespace at either end, and no longer than `s`. */
  function Strip(s: string): (t: string)
    ensures Trimmed(t)
    ensures |t| <= |s|
  {
    var l := StripLeading(s);
    StripLeadingSpec(s);
    StripTrailingSpec(l);
    var t := StripTrailing(l);
    assert t != [] ==> t[0] == l[0];
    t
  }

  /** str.strip() keeps an infix of `s` and removes only whitespace around it. */
  lemma StripKeepsInfix(s: string)
    ensures |StripLeading(s)| <= |s|
    ensures var t, i := StripTrailing(StripLeading(s)), |s| - |StripLeading(s)|;
      && i + |t| <= |s| && t == s[i..i + |t|]
      && (forall k :: 0 <= k < i ==> IsSpace(s[k]))
      && (forall k :: i + |t| <= k < |s| ==> IsSpace(s[k]))
  {
    var l := StripLeading(s);
    var t := StripTrailing(l);
    var i := |s| - |l|;
    StripLeadingSpec(s);
    StripTrailingSpec(l);
    assert t == s[i..i + |t|];
    forall k | i + |t| <= k < |s| ensures IsSpace(s[k]) {
      assert s[k] == l[k - i];
    }
  }

  /**
   * What str.strip() removes is whitespace, and what it leaves is the infix
   * of `s` that is Trimmed.
   */
  lemma StripSpec(s: string)
    ensures Trimmed(Strip(s))
    ensures |StripLeading(s)| <= |s|
    ensures var t, i := Strip(s), |s| - |StripLeading(s)|;
      && i + |t| <= |s| && t == s[i..i + |t|]
      && (forall k :: 0 <= k < i ==> IsSpace(s[k]))
      && (forall k :: i + |t| <= k < |s| ==> IsSpace(s[k]))
  {
    StripKeepsInfix(s);
  }

  /** Stripping leaves a string unchanged exactly when it is already Trimmed, so it is idempotent. */
  lemma StripIdempotent(s: string)
    ensures Strip(s) == s <==> Trimmed(s)
    ensures Strip(Strip(s)) == Strip(s)
  {
    StripSpec(s);
    forall u | Trimmed(u) ensures Strip(u) == u {
      assert StripLeading(u) == u;
      assert StripTrailing(u) == u;
    }
  }

  /** The row with VendorName and Description stripped. */
  function StripText(r: VendorRow): VendorRow
  {
    r.(vendorName := Strip(r.vendorName), description := Strip(r.description))
  }

  // ---------------------------------------------------------------------
  // GrossProfit, ProfitMargin, StockTurnover, SalesToPurchaseRatio

  /** n / d, with ZeroDivisor where pandas would give inf or NaN. */
  function Divide(n: real, d: real): (q: Quotient)
    ensures q.Finite? <==> d != 0.0
    ensures q.Finite? ==> q.value * d == n
  {
    if d == 0.0 then ZeroDivisor else Finite(n / d)
  }

  function Scale(q: Quotient, factor: real): Quotient
  {
    if q.Finite? then Finite(q.value * factor) else ZeroDivisor
  }

  /**
   * The four derived columns: each ratio is the unique number that times its
   * divisor gives its dividend, defined exactly when the divisor is not 0.
   */
  function ComputeMetrics(salesDollars: real, salesQuantity: real, purchaseDollars: real, purchaseQuantity: real): (m: Metrics)
    ensures m.grossProfit == salesDollars - purchaseDollars
    ensures m.profitMargin.Finite? <==> salesDollars != 0.0
    ensures m.profitMargin.Finite? ==> m.profitMargin.value * salesDollars == 100.0 * m.grossProfit
    ensures m.stockTurnover.Finite? <==> purchaseQuantity != 0.0
    ensures m.stockTurnover.Finite? ==> m.stockTurnover.value * purchaseQuantity == salesQuantity
    ensures m.salesToPurchaseRatio.Finite? <==> purchaseDollars != 0.0
    ensures m.salesToPurchaseRatio.Finite? ==> m.salesToPurchaseRatio.value * purchaseDollars == salesDollars
  {
    var grossProfit := salesDollars - purchaseDollars;
    var margin := Scale(Divide(grossProfit, salesDollars), 100.0);
    assert margin.Finite? ==> margin.value * salesDollars == (grossProfit / salesDollars) * salesDollars * 100.0;
    Metrics(grossProfit, margin, Divide(salesQuantity, purchaseQuantity), Divide(salesDollars, purchaseDollars))
  }

  /**
   * How the metrics relate to each other: where sales and purchase dollars
   * are both non-zero, ProfitMargin = 100 * (1 - 1 / SalesToPurchaseRatio).
   */
  lemma MarginFromRatio(salesDollars: real, salesQuantity: real, purchaseDollars: real, purchaseQuantity: real)
    requires salesDollars != 0.0 && purchaseDollars != 0.0
    ensures var m := ComputeMetrics(salesDollars, salesQuantity, purchaseDollars, purchaseQuantity);
      m.profitMargin.value == 100.0 * (1.0 - 1.0 / m.salesToPurchaseRatio.value)
  {
    var m := ComputeMetrics(salesDollars, salesQuantity, purchaseDollars, purchaseQuantity);
    var x := m.profitMargin.value;
    var r := m.salesToPurchaseRatio.value;
    assert r * purchaseDollars == salesDollars;
    assert r != 0.0;
    var inv := 1.0 / r;
    assert inv * r == 1.0;
    calc {
      inv * salesDollars;
      inv * (r * purchaseDollars);
      (inv * r) * purchaseDollars;
      purchaseDollars;
    }
    calc {
      x * salesDollars;
      100.0 * (salesDollars - purchaseDollars);
      100.0 * (salesDollars - inv * salesDollars);
      (100.0 * (1.0 - inv)) * salesDollars;
    }
    assert (x - 100.0 * (1.0 - inv)) * salesDollars == 0.0;
  }

  /** With positive purchase dollars, GrossProfit is positive exactly when SalesToPurchaseRatio exceeds 1. */
  lemma ProfitableIffRatioAboveOne(salesDollars: real, salesQuantity: real, purchaseDollars: real, purchaseQuantity: real)
    requires purchaseDollars > 0.0
    ensures var m := ComputeMetrics(salesDollars, salesQuantity, purchaseDollars, purchaseQuantity);
      m.grossProfit > 0.0 <==> m.salesToPurchaseRatio.value > 1.0
  {
    var m := ComputeMetrics(salesDollars, salesQuantity, purchaseDollars, purchaseQuantity);
    var r := m.salesToPurchaseRatio.value;
    assert r * purchaseDollars == salesDollars;
    assert salesDollars - purchaseDollars == (r - 1.0) * purchaseDollars;
    if r > 1.0 {
      assert (r - 1.0) * purchaseDollars > 0.0;
    } else {
      assert (1.0 - r) * purchaseDollars >= 0.0;
    }
  }

  /**
   * The row with the four metric columns computed from its (filled) totals;
   * no other column changes.
   */
  function AddMetrics(r: VendorRow): (a: VendorRow)
    requires NoMissing(r)
    ensures a == r.(metrics := a.metrics)
    ensures a.metrics.Some?
    ensures a.metrics.value.grossProfit == r.totalSalesDollars.value - r.totalPurchaseDollars
    ensures a.metrics.value.profitMargin.Finite? <==> r.totalSalesDollars.value != 0.0
    ensures a.metrics.value.stockTurnover.Finite? <==> r.totalPurchaseQuantity != 0.0
    ensures a.metrics.value.salesToPurchaseRatio.Finite? <==> r.totalPurchaseDollars != 0.0
  {
    r.(metrics := Some(ComputeMetrics(r.totalSalesDollars.value, r.totalSalesQuantity.value,
                                      r.totalPurchaseDollars, r.totalPurchaseQuantity)))
  }

  // ---------------------------------------------------------------------
  // A whole row through clean_data

  /** A row after all four steps of clean_data. */
  function CleanRow(r: VendorRow, toFloat: string -> Option<real>): (c: VendorRow)
    requires Coercible(r.volume, toFloat)
    ensures c.volume.Number? && NoMissing(c) && c.metrics.Some?
    ensures Trimmed(c.vendorName) && Trimmed(c.description)
  {
    AddMetrics(StripText(FillMissing(WithFloatVolume(r, toFloat))))
  }

  /**
   * A cleaned row: Volume is a number, nothing is missing (a missing amount
   * became 0, a present one is kept), VendorName and Description are
   * stripped, the metrics are those of its filled totals, and the key and
   * purchase columns are unchanged.
   */
  lemma CleanRowSpec(r: VendorRow, toFloat: string -> Option<real>)
    requires Coercible(r.volume, toFloat)
    ensures var c := CleanRow(r, toFloat);
      && c.volume == Number(AsFloat(r.volume, toFloat))
      && NoMissing(c)
      && c.totalSalesQuantity.value == Filled(r.totalSalesQuantity)
      && c.totalSalesDollars.value == Filled(r.totalSalesDollars)
      && c.totalSalesPrice.value == Filled(r.totalSalesPrice)
      && c.totalExciseTax.value == Filled(r.totalExciseTax)
      && c.freightCost.value == Filled(r.freightCost)
      && Trimmed(c.vendorName) && Trimmed(c.description)
      && c.vendorName == Strip(r.vendorName) && c.description == Strip(r.description)
      && c.metrics == Some(ComputeMetrics(Filled(r.totalSalesDollars), Filled(r.totalSalesQuantity),
                                          r.totalPurchaseDollars, r.totalPurchaseQuantity))
      && c.vendorNumber == r.vendorNumber && c.brand == r.brand
      && c.purchasePrice == r.purchasePrice && c.actualPrice == r.actualPrice
      && c.totalPurchaseQuantity == r.totalPurchaseQuantity && c.totalPurchaseDollars == r.totalPurchaseDollars
  {
    StripSpec(r.vendorName);
    StripSpec(r.description);
  }

  /**
   * A row with no sales (the LEFT JOIN found no sales row) cleans to zero
   * sales, GrossProfit equal to minus its purchase dollars, and no
   * ProfitMargin.
   */
  lemma CleanRowUnsold(r: VendorRow, toFloat: string -> Option<real>)
    requires Coercible(r.volume, toFloat)
    requires r.totalSalesQuantity == None && r.totalSalesDollars == None
    requires r.totalSalesPrice == None && r.totalExciseTax == None
    ensures var c := CleanRow(r, toFloat);
      && c.totalSalesQuantity == Some(0.0) && c.totalSalesDollars == Some(0.0)
      && c.totalSalesPrice == Some(0.0) && c.totalExciseTax == Some(0.0)
      && c.metrics.value.grossProfit == -r.totalPurchaseDollars
      && c.metrics.value.profitMargin == ZeroDivisor
  {
    CleanRowSpec(r, toFloat);
  }

  /** Cleaning a cleaned row changes nothing. */
  lemma CleanRowIdempotent(r: VendorRow, toFloat: string -> Option<real>)
    requires Coercible(r.volume, toFloat)
    ensures Coercible(CleanRow(r, toFloat).volume, toFloat)
    ensures CleanRow(CleanRow(r, toFloat), toFloat) == CleanRow(r, toFloat)
  {
    StripIdempotent(r.vendorName);
    StripIdempotent(r.description);
  }

  // ---------------------------------------------------------------------
  // The in-place passes over the table

  /**
   * df['Volume'] = df['Volume'].astype('float'): either every Volume cell
   * converts and the column is replaced, or the conversion fails on some
   * cell and the table is left as it was.
   */
  method CoerceVolume(df: array<VendorRow>, toFloat: string -> Option<real>) returns (outcome: Outcome<DataTypeError>)
    modifies df
    ensures outcome.Pass? <==> forall i :: 0 <= i < df.Length ==> Coercible(old(df[i]).volume, toFloat)
    ensures outcome.Fail? ==> df[..] == old(df[..])
    ensures outcome.Fail? ==> exists i :: (0 <= i < df.Length
      && old(df[i]).volume == Text(outcome.error.text) && toFloat(outcome.error.text).None?)
    ensures outcome.Pass? ==> forall i :: 0 <= i < df.Length ==> df[i] == WithFloatVolume(old(df[i]), toFloat)
  {
    var n := 0;
    while n < df.Length
      invariant 0 <= n <= df.Length
      invariant forall i :: 0 <= i < n ==> Coercible(df[i].volume, toFloat)
    {
      if !Coercible(df[n].volume, toFloat) {
        return Fail(NotNumeric(df[n].volume.raw));
      }
      n := n + 1;
    }
    for i := 0 to df.Length
      invariant forall k :: 0 <= k < i ==> df[k] == WithFloatVolume(old(df[k]), toFloat)
      invariant forall k :: i <= k < df.Length ==> df[k] == old(df[k])
    {
      df[i] := WithFloatVolume(df[i], toFloat);
    }
    return Pass;
  }

  /** df.fillna(0, inplace=True). */
  method FillMissingColumns(df: array<VendorRow>)
    modifies df
    ensures forall i :: 0 <= i < df.Length ==> df[i] == FillMissing(old(df[i])) && NoMissing(df[i])
  {
    for i := 0 to df.Length
      invariant forall k :: 0 <= k < i ==> df[k] == FillMissing(old(df[k]))
      invariant forall k :: i <= k < df.Length ==> df[k] == old(df[k])
    {
      df[i] := FillMissing(df[i]);
    }
  }

  /** df['VendorName'] and df['Description'] replaced by their .str.strip(). */
  method StripColumns(df: array<VendorRow>)
    modifies df
    ensures forall i :: 0 <= i < df.Length ==> df[i] == StripText(old(df[i]))
  {
    for i := 0 to df.Length
      invariant forall k :: 0 <= k < i ==> df[k] == StripText(old(df[k]))
      invariant forall k :: i <= k < df.Length ==> df[k] == old(df[k])
    {
      df[i] := StripText(df[i]);
    }
  }

  /** The four metric columns assigned from the filled totals. */
  method AddMetricColumns(df: array<VendorRow>)
    requires forall i :: 0 <= i < df.Length ==> NoMissing(df[i])
    modifies df
    ensures forall i :: 0 <= i < df.Length ==> df[i] == AddMetrics(old(df[i]))
  {
    for i := 0 to df.Length
      invariant forall k :: 0 <= k < i ==> df[k] == AddMetrics(old(df[k]))
      invariant forall k :: i <= k < df.Length ==> df[k] == old(df[k])
    {
      df[i] := AddMetrics(df[i]);
    }
  }

  /**
   * clean_data: the four passes in order. A Volume that does not convert
   * aborts with DataTypeError before anything is changed; otherwise every
   * row becomes its CleanRow and the row count is unchanged.
   */
  method CleanData(df: array<VendorRow>, toFloat: string -> Option<real>) returns (outcome: Outcome<DataTypeError>)
    modifies df
    ensures outcome.Pass? <==> forall i :: 0 <= i < df.Length ==> Coercible(old(df[i]).volume, toFloat)
    ensures outcome.Fail? ==> df[..] == old(df[..])
    ensures outcome.Pass? ==> forall i :: 0 <= i < df.Length ==>
      Coercible(old(df[i]).volume, toFloat) && df[i] == CleanRow(old(df[i]), toFloat)
  {
    outcome := CoerceVolume(df, toFloat);
    if outcome.Fail? {
      return;
    }
    ghost var converted := df[..];
    FillMissingColumns(df);
    ghost var filled := df[..];
    StripColumns(df);
    forall i | 0 <= i < df.Length ensures NoMissing(df[i]) {
      assert df[i] == StripText(filled[i]);
    }
    AddMetricColumns(df);
  }

  // ---------------------------------------------------------------------
  // clean_data as written

  /** Why the function as written stops: a failed conversion, or a name that is not defined. */
  datatype CleanFailure = ConversionFailed(cause: DataTypeError) | NameError(name: string)

  /**
   * clean_data exactly as written: the metric assignments read and write
   * `vendor_sales_summary`, a name bound only inside create_vendor_summary,
   * so the call never completes. When Volume converts, the first three passes
   * have already changed the caller's table in place when NameError is raised.
   */
  method CleanDataAsWritten(df: array<VendorRow>, toFloat: string -> Option<real>) returns (outcome: Outcome<CleanFailure>)
    modifies df
    ensures outcome.Fail?
    ensures outcome.error.ConversionFailed? <==> exists i :: 0 <= i < df.Length && !Coercible(old(df[i]).volume, toFloat)
    ensures outcome.error.ConversionFailed? ==> df[..] == old(df[..])
    ensures outcome.error.NameError? ==> outcome.error.name == "vendor_sales_summary"
    ensures outcome.error.NameError? ==> forall i :: 0 <= i < df.Length ==>
      Coercible(old(df[i]).volume, toFloat) && df[i] == StripText(FillMissing(WithFloatVolume(old(df[i]), toFloat)))
  {
    var converted := CoerceVolume(df, toFloat);
    if converted.Fail? {
      return Fail(ConversionFailed(converted.error));
    }
    FillMissingColumns(df);
    StripColumns(df);
    return Fail(NameError("vendor_sales_summary"));
  }
}
