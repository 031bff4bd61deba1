# Vendor sales summary — a Dafny model

`get_vendor_summary.py` builds one analytical table, the vendor sales
summary, from four tables of an inventory database. It does this in two
steps:

- **`create_vendor_summary`** runs one SQL query with three rollups:
  - `FreightSummary` sums `vendor_invoice.Freight` per vendor;
  - `PurchaseSummary` joins `purchases` with `purchase_prices` on Brand, keeps
    line items with `PurchasePrice > 0`, and sums Quantity and Dollars per
    vendor, name, brand, description, purchase price, reference price and
    volume;
  - `SalesSummary` sums four sales columns per vendor and brand.

  The query LEFT JOINs the sales and freight rollups onto the purchase
  rollup and orders the result by `TotalPurchaseDollars` descending.
- **`clean_data`** converts `Volume` to float, fills missing values with 0,
  strips whitespace around `VendorName` and `Description`, and adds four
  derived columns: `GrossProfit`, `ProfitMargin`, `StockTurnover` and
  `SalesToPurchaseRatio`.

The query is pure, so it is modelled with datatypes and functions. Tables
are sequences of rows. The generic relational operations live in their own
module:

- projection;
- `GROUP BY` keys in order of first appearance;
- grouped `SUM`;
- `LEFT JOIN`;
- `ORDER BY ... DESC` (a stable insertion sort).

The cleaning step changes a data frame column by column. It is modelled as
methods that update an `array` of rows in place, one loop per pass;
the Volume pass has two loops, because it checks every cell before it
converts any. Each method is tied to a per-row function whose properties
are proved as lemmas.

Modules:

- `Wrappers` — `Option` and `Outcome`.
- `Relational` — the generic table operations and their lemmas.
- `VendorTable` — the row of the summary table, shared by both steps.
  NULLs produced by the LEFT JOINs are `None`. `Volume` is text until it is
  converted. A division by zero is `ZeroDivisor`.
- `VendorSummary` — the query and what each output row says about the
  source tables.
- `Cleaning` — `clean_data`.
- `Scenario` — one worked example carried through both steps.

The source has two defects:

- Lines 81-84 assign the derived columns to `vendor_sales_summary`. That
  name is only bound inside `create_vendor_summary`, so `clean_data` as
  written raises `NameError`. The table under "Findings" covers this. The
  rest of the model adds the columns to `df`, the frame the function
  returns, which is the evident intent.
- Line 16 calls `pd.read_sql_query` although `pandas` is never imported.
  The model describes the table that call returns once the import is
  present.

## Model

| member | source | states |
|---|---|---|
| `Relational.Distinct` | get_vendor_summary.py:17 | The groups of a GROUP BY: exactly the values that occur, each once, at most as many as there are rows. |
| `Relational.SumWhereAllOrNone` | get_vendor_summary.py:17 | A grouped SUM is 0 when no row has the key and the plain sum when every row has it. |
| `Relational.GroupTotal` | get_vendor_summary.py:54-60 | A rollup column seen through a LEFT JOIN: NULL exactly when no source row has the key, otherwise the grouped sum. |
| `Relational.GroupSumsAddUp` | get_vendor_summary.py:17 | Group sums over keys that cover every row, each key once, add up to the sum over the whole table. |
| `Relational.SumOfRollup` | get_vendor_summary.py:17 | A rollup table whose i-th row holds the sum for the i-th key sums to the grouped sums over those keys. |
| `Relational.MatchesOf` | get_vendor_summary.py:31 | The right rows that match a key: exactly those in the table whose join column equals it, each as often as it occurs there. |
| `Relational.MatchesOfUniqueKeys` | get_vendor_summary.py:62-63 | When the right side has one row per key, a key matches at most one row. |
| `Relational.Lookup` | get_vendor_summary.py:62-63 | The joined right row: None exactly when no right row has the key, otherwise a right row with that key. |
| `Relational.LeftJoin` | get_vendor_summary.py:62-63 | LEFT JOIN yields at least one row per left row and only left rows on the left side; a right side is a right row whose key equals the left row's, and NULL only when no right row has that key. |
| `Relational.LeftJoinKeepsLeftRows` | get_vendor_summary.py:62-63 | LEFT JOIN never drops a left row: each heads some output row. |
| `Relational.LeftJoinOneToOne` | get_vendor_summary.py:62-63 | With one right row per key, LEFT JOIN keeps the row count and pairs the i-th left row with its match or NULL. |
| `Relational.InsertDesc` | get_vendor_summary.py:64 | Inserting one row adds exactly that row to the multiset of rows. |
| `Relational.InsertDescSorted` | get_vendor_summary.py:64 | Inserting into a descending sequence keeps it descending. |
| `Relational.SortDesc` | get_vendor_summary.py:64 | ORDER BY ... DESC: a permutation of the input in which the key never increases. |
| `Relational.UniqueKeysPermutation` | get_vendor_summary.py:64 | Reordering rows keeps the keys distinct when they were distinct. |
| `VendorSummary.FreightSummary` | get_vendor_summary.py:16-18 | One row per vendor that has an invoice, and no other, carrying the sum of that vendor's Freight. |
| `VendorSummary.PricesFor` | get_vendor_summary.py:31 | A line item paired with exactly the purchase_prices rows of its Brand. |
| `VendorSummary.PricesForCounts` | get_vendor_summary.py:31 | A reference row listed n times pairs with a line item n times; rows of other brands not at all. |
| `VendorSummary.JoinPrices` | get_vendor_summary.py:30-32 | The inner join with WHERE: exactly the pairs of a line item and a reference row with the same Brand and PurchasePrice > 0. |
| `VendorSummary.JoinPricesCounts` | get_vendor_summary.py:30-32 | The inner join keeps multiplicities: a pair that passes ON and WHERE occurs (copies of the line item) times (copies of the reference row) times, any other pair never. |
| `VendorSummary.RollupPurchases` | get_vendor_summary.py:33 | GROUP BY over joined line items: one row per distinct seven-column key, and no other, each with the sums of Quantity and Dollars over that key. |
| `VendorSummary.PurchaseSummary` | get_vendor_summary.py:19-34 | One row per seven-column group of the joined line items, and no other; its totals are the sums of Quantity and Dollars over the group. |
| `VendorSummary.SalesSummary` | get_vendor_summary.py:35-45 | One row per (VendorNo, Brand) that was sold, and no other; its four totals are the sums over that pair's sales. |
| `VendorSummary.Assemble` | get_vendor_summary.py:46-60 | An output row carries its group's seven key columns and purchase totals, the four sales totals or four NULLs, the freight cost or NULL, and no metrics yet. |
| `VendorSummary.Unordered` | get_vendor_summary.py:46-63 | Before ordering, the i-th row is the i-th purchase group with its vendor/brand sales row and its vendor freight row, or NULLs; neither LEFT JOIN drops or repeats a row. |
| `VendorSummary.CreateVendorSummary` | get_vendor_summary.py:16-66 | The result is a permutation of the joined rows with one row per purchase group, ordered by TotalPurchaseDollars descending. |
| `VendorSummary.SalesMatch` | get_vendor_summary.py:62 | The sales row joined to a vendor/brand is missing exactly when that pair has no sale; otherwise its four totals are the sums over those sales. |
| `VendorSummary.FreightMatch` | get_vendor_summary.py:63 | The freight row joined to a vendor is missing exactly when the vendor has no invoice; otherwise it holds the vendor's Freight sum. |
| `VendorSummary.UnorderedRowFromSources` | get_vendor_summary.py:46-63 | Every joined row carries its group's key, its purchase sums, the sales sums of its vendor/brand (NULL if unsold) and its vendor's freight sum (NULL if uninvoiced). |
| `VendorSummary.OutputRowsFromSources` | get_vendor_summary.py:46-64 | Every output row is accounted for by the source tables as above. |
| `VendorSummary.InnerJoinExclusion` | get_vendor_summary.py:30-32 | Every output row is the group of a line item with PurchasePrice > 0 whose Brand has a purchase_prices row. |
| `VendorSummary.GrainCompleteness` | get_vendor_summary.py:30-33 | Every such line item has an output row for its group, whether or not it was sold or invoiced. |
| `VendorSummary.SummaryHasGroup` | get_vendor_summary.py:33 | Every joined line item's group is a row of the purchase rollup. |
| `VendorSummary.OutputRowIndex` | get_vendor_summary.py:64 | Every output row is one of the joined rows before ordering. |
| `VendorSummary.UnorderedRowInOutput` | get_vendor_summary.py:64 | Ordering keeps every joined row. |
| `VendorSummary.OneRowPerGroup` | get_vendor_summary.py:33 | No two output rows share all seven grouping columns. |
| `VendorSummary.FreightIsVendorScoped` | get_vendor_summary.py:63 | All output rows of one vendor carry the same FreightCost, whatever the brand or price point. |
| `VendorSummary.UnsoldGroupsKept` | get_vendor_summary.py:62 | A group whose vendor/brand was never sold is still in the output, with all four sales columns NULL. |
| `VendorSummary.PricePointsKeptApart` | get_vendor_summary.py:33 | Two line items of one brand at different purchase prices land in two different output rows. |
| `VendorSummary.PricesForUniqueBrand` | get_vendor_summary.py:31 | With one reference row per Brand, a line item joins exactly that row, or none. |
| `VendorSummary.JoinedSumIsLineItemSum` | get_vendor_summary.py:28-33 | With one reference row per Brand, a sum over the joined rows of a group equals the sum over the line items of that group. |
| `VendorSummary.PurchaseTotalsFromLineItems` | get_vendor_summary.py:28-33 | With one reference row per Brand, each output row's purchase totals are the sums of Quantity and Dollars over exactly its line items. |
| `VendorSummary.FreightConserved` | get_vendor_summary.py:17 | The freight rollup adds up to all the Freight in vendor_invoice. |
| `VendorSummary.PurchaseDollarsConserved` | get_vendor_summary.py:29-33 | The purchase rollup's dollars add up to the Dollars of all joined line items. |
| `VendorSummary.SalesDollarsConserved` | get_vendor_summary.py:39-44 | The sales rollup's dollars add up to all SalesDollars in sales. |
| `Cleaning.AsFloat` | get_vendor_summary.py:71 | A numeric Volume keeps its value; a text Volume becomes the number the parser reads from it. |
| `Cleaning.CoerceVolume` | get_vendor_summary.py:71 | Succeeds exactly when every Volume converts; it then converts every row, and otherwise names a failing cell and leaves the table as it was. |
| `Cleaning.FillMissing` | get_vendor_summary.py:74 | fillna(0) leaves nothing missing, turns a missing amount into 0, keeps present values and leaves the other columns alone. |
| `Cleaning.FillMissingIdempotent` | get_vendor_summary.py:74 | A row with nothing missing is unchanged by fillna(0), so filling twice equals filling once. |
| `Cleaning.FillMissingColumns` | get_vendor_summary.py:74 | Every row of the table is filled in place and has no missing value. |
| `Cleaning.StripLeadingSpec` | get_vendor_summary.py:77-78 | Stripping the left end drops only a whitespace prefix and stops at the first other character. |
| `Cleaning.StripTrailingSpec` | get_vendor_summary.py:77-78 | Stripping the right end drops only a whitespace suffix and stops at the last other character. |
| `Cleaning.StripKeepsInfix` | get_vendor_summary.py:77-78 | str.strip() keeps an infix of the string and removes only whitespace around it. |
| `Cleaning.Strip` | get_vendor_summary.py:77-78 | str.strip() leaves no whitespace at either end and never lengthens the string. |
| `Cleaning.StripSpec` | get_vendor_summary.py:77-78 | str.strip() yields the infix without whitespace at its ends, with only whitespace removed around it. |
| `Cleaning.StripIdempotent` | get_vendor_summary.py:77-78 | A string is unchanged by strip exactly when it has no whitespace at its ends, so stripping twice equals stripping once. |
| `Cleaning.StripColumns` | get_vendor_summary.py:77-78 | VendorName and Description of every row are stripped in place, nothing else changes. |
| `Cleaning.Divide` | get_vendor_summary.py:82-84 | A quotient exists exactly when the divisor is non-zero, and times the divisor gives the dividend. |
| `Cleaning.ComputeMetrics` | get_vendor_summary.py:81-84 | GrossProfit is sales minus purchase dollars; each ratio exists exactly when its divisor is non-zero and is its dividend over its divisor. |
| `Cleaning.MarginFromRatio` | get_vendor_summary.py:81-84 | With non-zero sales and purchase dollars, ProfitMargin = 100 * (1 - 1 / SalesToPurchaseRatio). |
| `Cleaning.ProfitableIffRatioAboveOne` | get_vendor_summary.py:81-84 | With positive purchase dollars, GrossProfit is positive exactly when SalesToPurchaseRatio exceeds 1. |
| `Cleaning.AddMetrics` | get_vendor_summary.py:81-84 | Only the metric columns change; GrossProfit is sales minus purchase dollars, and each ratio exists exactly when its divisor is non-zero. |
| `Cleaning.AddMetricColumns` | get_vendor_summary.py:81-84 | Every row gets the metrics of its own filled totals, in place. |
| `Cleaning.CleanRow` | get_vendor_summary.py:68-86 | A cleaned row has a numeric Volume, nothing missing, metrics, and VendorName and Description without surrounding whitespace. |
| `Cleaning.CleanRowSpec` | get_vendor_summary.py:68-86 | A cleaned row has a numeric Volume, no missing amount (a missing one is 0), stripped names, metrics from its filled totals, and the key and purchase columns unchanged. |
| `Cleaning.CleanRowUnsold` | get_vendor_summary.py:74-84 | A row with NULL sales cleans to zero sales, GrossProfit equal to minus its purchase dollars, and no ProfitMargin. |
| `Cleaning.CleanRowIdempotent` | get_vendor_summary.py:68-86 | Cleaning a cleaned row changes nothing. |
| `Cleaning.CleanData` | get_vendor_summary.py:68-86 | Succeeds exactly when every Volume converts, and leaves the table untouched otherwise; on success each row is its cleaned row and the row count is unchanged. |
| `Cleaning.CleanDataAsWritten` | get_vendor_summary.py:68-86 | As written, never completes: it fails on Volume with the table untouched, or else raises NameError on `vendor_sales_summary` after the first three passes have changed the table in place. |
| `Scenario.SampleRollups` | get_vendor_summary.py:16-34 | In the example, the join keeps the one line item, the purchase rollup has one row and the vendor's freight is 100. |
| `Scenario.SampleSummary` | get_vendor_summary.py:16-64 | The example's summary is exactly one row: 5 units and 50 dollars purchased, NULL sales, 100 freight. |
| `Scenario.SampleCleaned` | get_vendor_summary.py:68-86 | Cleaned, that row has Volume 750, a stripped vendor name, sales 0, GrossProfit -50, StockTurnover and SalesToPurchaseRatio 0, and no ProfitMargin. |
| `Scenario.UnsoldGroupsCleanToZero` | get_vendor_summary.py:16-86 | Through both steps, a vendor/brand bought but never sold keeps its row, with sales 0, GrossProfit minus its purchase dollars, and no ProfitMargin. |

## Findings

| source | as written | input that shows it | evidently intended | confidence | as-written member | corrected member |
|---|---|---|---|---|---|---|
| get_vendor_summary.py:81-84 | The four derived columns are read from and written to `vendor_sales_summary`. That name is not bound in `clean_data` or at module level, so the call raises NameError. The first three passes have by then mutated the caller's frame. | Any frame whose Volume column converts, e.g. the one-row example in `Scenario` | The columns are computed from and added to `df`, which is returned | high (not executed) | `Cleaning.CleanDataAsWritten` | `Cleaning.CleanData` |

## Left out

- The database connection, `pd.read_sql_query`'s transport, logging, `ingest_db`, timing and the `__main__` driver (lines 1-11 and 88 onward) are I/O and are not modelled.
- The missing `import pandas as pd` (line 16) is not modelled. `VendorSummary.CreateVendorSummary` describes what the query returns once the import is present.
- NULLs in the four source tables are not modelled; input rows are complete. NULL only arises from the two LEFT JOINs. With NULL inputs, SQL `SUM` skips NULLs and a NULL join key matches nothing.
- Floating point is not modelled. Amounts are exact reals, so the rounding of `SUM` and of the divisions is absent.
- pandas division by zero gives `inf` or `NaN`. The model gives `ZeroDivisor` in the same cases. The cleaning step fills missing values before it computes the metrics, so these values stay in the table in both.
- `Cleaning.Coercible`: Python's string-to-float parser is a parameter `toFloat`, not a model of `float()` syntax. SQLite's dynamic typing of `Volume` is reduced to text that is either parsed or not.
- pandas dtype changes are not modelled. For example, an integer column does not become float when it holds NaN.
- `VendorSummary.CreateVendorSummary`: rows with equal TotalPurchaseDollars come out in an order SQLite leaves unspecified. The model sorts stably and claims only the descending order and the permutation.
- `Relational.Distinct`: SQLite leaves the order of GROUP BY groups unspecified. The model lists groups in order of first appearance, and no property depends on it.
- `VendorSummary.PurchaseTotalsFromLineItems` assumes one purchase_prices row per Brand. With several, the inner join counts a line item once per reference row. `VendorSummary.OutputRowsFromSources` states the totals for that case, as sums over the joined rows.
- `fillna(0)` on text columns is not modelled: VendorName, Description and Volume are never missing in the query's output. `str.strip` on a non-string cell is not modelled for the same reason.
