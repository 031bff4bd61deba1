/**
 * The shape of the vendor sales summary table: one row per vendor, brand and
 * purchase price point, as the summary query returns it and as the cleaning
 * step enriches it.
 */
module VendorTable {
  import opened Wrappers

  /** The Volume column: the text read from purchase_prices, or the number it was converted to. */
  datatype Volume = Text(raw: string) | Number(value: real)

  /**
   * A ratio column. Where the divisor is 0, pandas stores inf or NaN; the
   * model stores ZeroDivisor instead.
   */
  datatype Quotient = Finite(value: real) | ZeroDivisor

  /** The four columns added by the cleaning step. */
  datatype Metrics = Metrics(
    grossProfit: real,
    profitMargin: Quotient,
    stockTurnover: Quotient,
    salesToPurchaseRatio: Quotient)

  /**
   * One row of the summary. The sales columns and FreightCost are None where
   * the LEFT JOINs found no match; `metrics` is None until the cleaning step
   * adds those columns.
   */
  datatype VendorRow = VendorRow(
    vendorNumber: int,
    vendorName: string,
    brand: int,
    description: string,
    purchasePrice: real,
    actualPrice: real,
    volume: Volume,
    totalSalesQuantity: Option<real>,
    totalSalesDollars: Option<real>,
    totalSalesPrice: Option<real>,
    totalExciseTax: Option<real>,
    totalPurchaseQuantity: real,
    totalPurchaseDollars: real,
    freightCost: Option<real>,
    metrics: Option<Metrics>)
}
