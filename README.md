# Sales metrics backend — a Dafny model

This project models the backend of a small sales-analytics service. A user uploads a
CSV or Excel file of sales rows (platform, brand, product name, year-month, quantity,
price). The service keeps the last uploaded table in a module-level slot. It answers five
metric endpoints computed from that table:

- a summary: total revenue, number of orders, average order value, total units, and items per order;
- per-platform revenue, orders, average order value, and units per order;
- per-brand revenue, units, and revenue share, ranked by value;
- monthly revenue with month-over-month and year-over-year growth;
- the top-N products by revenue and by units.

Modules:

- `Wrappers` — `Option` and `Result`.
- `Sorting` — a stable insertion sort under a total preorder. Proved: it is sorted, it is a permutation, and it keeps the keys of an association list distinct.
- `Table` — raw rows and cleaned rows, and `Stats` tallies (revenue, units, order count). Also a group-by (`GroupBy`) that folds rows into an association list with one entry per key, plus `ToMap` (a pandas Series turned into a dict) and sums over maps.
  - Group keys are `Option`: pandas `groupby` drops rows whose key is missing.
- `Sales` — `add_order_revenue` and the five metric functions of `services/sales.py`.
- `Loader` — `load_sales_file`: the file is classified by its lower-cased name, and each reader is passed in as a function.
- `DataStore` — the module-level slot of `services/data_store.py`, as a class `Store` whose `Option<Table>` field is set and read.
- `Api` — the request handlers of `main.py`, as methods over a `Store`.

Numbers are exact `real`s. IEEE division, which pandas uses for ratios and `pct_change`, is
modelled by a small `Float` type (`Finite`, `PosInf`, `NegInf`, `NaN`), so the cases where
the code divides by zero are explicit.

A zero total revenue is not guarded: `services/sales.py:106` divides every brand's revenue
by it, so every share is NaN or ±inf. `Sales.BrandSharesCorrect` proves that no share is
finite then.

## Model

| member | source | states |
|---|---|---|
| Sales.AddOrderRevenue | backend/app/services/sales.py:18-24 | the cleaned table has no more rows than the input, and each row's revenue is its quantity times its price |
| Sales.AddOrderRevenueKeeps | backend/app/services/sales.py:20-22 | a row is kept exactly when both quantity and price parse as numbers, and every kept row comes from such an input row |
| Sales.AddOrderRevenueAppend | backend/app/services/sales.py:18-24 | cleaning is row-wise: cleaning a concatenation is the concatenation of the cleaned parts |
| Sales.Trunc | backend/app/services/sales.py:49 | `int()` of a float truncates toward zero, on both signs |
| Sales.SummaryOf | backend/app/services/sales.py:38-51 | orders is the number of rows; revenue and units are their sums (units truncated); aov and items per order divide those sums by the number of orders; with no rows every field is zero |
| Sales.SummaryMetrics | backend/app/services/sales.py:36-51 | the same facts, stated for the rows that survive cleaning |
| Sales.SummaryAverages | backend/app/services/sales.py:41-42 | aov times orders gives back total revenue, and items per order times orders gives back total units |
| Sales.PlatformMetrics | backend/app/services/sales.py:64-78 | `platform_metrics`: four dicts keyed by platform; what they hold is stated by PlatformMetricsKeys, PlatformMetricsValues and PlatformConservation |
| Sales.SummaryExample | backend/app/services/sales.py:36-51 | two orders (2 at 10, 1 at 5) give revenue 25, aov 12.5, units 3 and 1.5 items per order |
| Sales.PlatformMetricsKeys | backend/app/services/sales.py:66-77 | a platform is a key of each of the four maps exactly when some cleaned row has that platform |
| Sales.PlatformMetricsValues | backend/app/services/sales.py:66-77 | for a platform that occurs: its revenue is the revenue of its rows, its order count is its row count (at least one), aov is revenue / orders, units per order is units / orders |
| Sales.PlatformConservation | backend/app/services/sales.py:66-75 | the platform revenues and order counts add up to the totals over rows with a platform, and to the summary totals when every row has one |
| Sales.ByValueDescPreorder | backend/app/services/sales.py:97 | descending order by value is a total preorder |
| Sales.ByKeyAscPreorder | backend/app/services/sales.py:131 | ascending order by month key is a total preorder |
| Sales.Divide | backend/app/services/sales.py:106 | IEEE division: a finite quotient for a non-zero divisor, and ±inf or NaN for a zero one; SharesAt and GrowthAt state what it yields in context |
| Sales.ZeroIfUndefined | backend/app/services/sales.py:137-149 | `replace([inf, -inf], 0).fillna(0)`: undefined quotients read as 0; GrowthAt states its effect on the growth series |
| Sales.RankingCorrect | backend/app/services/sales.py:94-104 | a sorted group column keeps the groups' keys, stays free of duplicate keys, is in non-increasing order of value, and holds each group's measure |
| Sales.RankingSum | backend/app/services/sales.py:106 | the sum of a ranked column is the measure summed over all groups |
| Sales.BrandMetricsCorrect | backend/app/services/sales.py:92-104 | revenue-by-brand and units-by-brand list each occurring brand once, in non-increasing order, with the revenue or units of its rows |
| Sales.BrandMetrics | backend/app/services/sales.py:92-112 | `brand_metrics`: the revenue and units rankings and the revenue shares; stated by BrandMetricsCorrect, BrandConservation and BrandSharesCorrect |
| Sales.BrandRankingTotals | backend/app/services/sales.py:94-106 | when every row has a brand, both rankings add up to the table's revenue and units |
| Sales.BrandConservation | backend/app/services/sales.py:94-106 | when every cleaned row has a brand, the brand revenues add up to the summary's total revenue and the brand units to the total units |
| Sales.SharesSum | backend/app/services/sales.py:106 | with a non-zero total, the shares add up to 100 times the column's sum divided by the total |
| Sales.SharesOfTotal | backend/app/services/sales.py:106 | shares taken against the column's own non-zero sum add up to exactly 100 |
| Sales.SharesAt | backend/app/services/sales.py:106 | each share keeps its brand and is the value over the total times 100, and is undefined (not finite) when the total is zero |
| Sales.BrandSharesCorrect | backend/app/services/sales.py:106-111 | each brand's share is revenue / total revenue × 100; the shares sum to 100 when total revenue is non-zero; none is finite when it is zero |
| Sales.MonthlyRevenue | backend/app/services/sales.py:128-132 | monthly revenue sorted by month; stated by MonthlyRevenueCorrect |
| Sales.PctChange | backend/app/services/sales.py:134-135 | `pct_change(periods)` at one position: undefined for the first `periods` entries, otherwise the IEEE value of current / earlier − 1; stated by GrowthAt |
| Sales.Growth | backend/app/services/sales.py:134-149 | the growth series in percent with undefined values read as 0; stated by GrowthAt and GrowthRecovers |
| Sales.TimeMetrics | backend/app/services/sales.py:126-158 | `time_metrics`: monthly revenue with growth over one and twelve periods; stated by MonthlyRevenueCorrect and TimeMetricsCorrect |
| Sales.MonthlyRevenueCorrect | backend/app/services/sales.py:128-132 | monthly revenue has strictly increasing months, exactly the months that occur, each with the revenue of its rows |
| Sales.GrowthAt | backend/app/services/sales.py:134-149 | growth keeps each month; it is 0 for the first `periods` months and wherever the earlier value is 0; otherwise it is (current − earlier) / earlier × 100 |
| Sales.GrowthRecovers | backend/app/services/sales.py:134-135 | where the earlier value is non-zero, the current value is the earlier one grown by the growth percentage |
| Sales.TimeMetricsCorrect | backend/app/services/sales.py:134-158 | the first month has month-over-month growth 0 and the first twelve months have year-over-year growth 0 |
| Sales.Head | backend/app/services/sales.py:176 | `head(n)` is a prefix: min(n, length) entries for n ≥ 0, and all but the last −n entries for negative n |
| Sales.HeadCutoff | backend/app/services/sales.py:172-176 | in a non-increasing column, every entry kept by `head` is at least as large as any entry it cut |
| Sales.ProductMetrics | backend/app/services/sales.py:170-189 | `product_metrics`: the first n entries of the revenue and units rankings; stated by TopProductsLength, TopProductsOrdered, TopProductsValues and TopProductsCutoff |
| Sales.TopProductsLength | backend/app/services/sales.py:172-184 | for n ≥ 0 the top list holds min(n, number of distinct products) entries |
| Sales.TopProductsOrdered | backend/app/services/sales.py:172-184 | the top list is non-increasing and lists each product at most once |
| Sales.TopProductsValues | backend/app/services/sales.py:172-184 | every listed product occurs, with the revenue or units of its rows |
| Sales.TopProductsCutoff | backend/app/services/sales.py:172-184 | no product left out of the top list has a larger total than a listed one |
| Loader.Lower | backend/app/utils/loader.py:4 | ASCII lower-casing of the file name; stated by LowerAppend and LowerIdempotent |
| Loader.Classify | backend/app/utils/loader.py:4-11 | the if / elif / else on the lowered name; stated by ClassifyCases, ClassifyIgnoresCase and the example lemmas |
| Loader.LoadSalesFile | backend/app/utils/loader.py:3-13 | `load_sales_file` with the two readers as parameters; stated by LoadSalesFileDispatch |
| Loader.LowerAppend | backend/app/utils/loader.py:4 | the model's ASCII lower-casing works character by character, so it distributes over concatenation |
| Loader.LowerIdempotent | backend/app/utils/loader.py:4 | lower-casing twice is lower-casing once |
| Loader.ClassifyIgnoresCase | backend/app/utils/loader.py:4-11 | names that agree after lower-casing are treated alike |
| Loader.ExcelIsNotCsv | backend/app/utils/loader.py:6-8 | an Excel suffix excludes the CSV suffix, so the order of the tests does not matter |
| Loader.ClassifyCases | backend/app/utils/loader.py:6-11 | CSV exactly when the lowered name ends in ".csv"; Excel exactly when it ends in ".xlsx" or ".xls"; otherwise the "Unsupported file type" error |
| Loader.CsvSuffix | backend/app/utils/loader.py:4-7 | any name ending in ".csv" or ".CSV" is read as CSV |
| Loader.TxtSuffix | backend/app/utils/loader.py:10-11 | any name ending in ".txt" is rejected |
| Loader.AcceptedExamples | backend/app/utils/loader.py:4-9 | "a.txt.csv" is read as CSV; "Sales.XLSX" and "report.xls" are read as Excel |
| Loader.RefusedExamples | backend/app/utils/loader.py:4-11 | "x.txt", "x" and "x.csv.txt" are rejected |
| Loader.LoadSalesFileDispatch | backend/app/utils/loader.py:3-13 | loading gives the CSV reader's result, the Excel reader's result, or the error, by suffix |
| DataStore.Store.constructor | backend/app/services/data_store.py:3 | the slot starts empty |
| DataStore.Store.SetSalesData | backend/app/services/data_store.py:5-7 | setting replaces the stored table |
| DataStore.Store.GetSalesData | backend/app/services/data_store.py:9-12 | getting fails with "No sales data uploaded yet" when empty, and otherwise returns the stored table without changing it |
| DataStore.GetBeforeSet | backend/app/services/data_store.py:3-11 | a get before any set fails |
| DataStore.LastWriteWins | backend/app/services/data_store.py:5-12 | after two sets a get returns the second table |
| DataStore.LastSetWithoutSet | backend/app/services/data_store.py:5-12 | gets alone leave the first table in the store |
| DataStore.LastSetIsLastWrite | backend/app/services/data_store.py:5-7 | after a sequence of operations the store holds the table of the last set |
| DataStore.ReadsAfterSet | backend/app/services/data_store.py:5-12 | each get in a sequence sees the table of the most recent set |
| Api.UploadSalesFile | backend/app/main.py:38-50 | a failed load becomes a 400 carrying the error text and leaves the store unchanged; a successful load stores the table and reports its row count and columns |
| Api.GetSummaryMetrics | backend/app/main.py:64-77 | an empty store yields five zeros; otherwise the summary of the stored table |
| Api.GetPlatformMetrics | backend/app/main.py:80-87 | an empty store makes the handler raise the getter's error; otherwise the platform metrics; the `{"error"}` body is never produced |
| Api.GetProductMetrics | backend/app/main.py:90-97 | as above, for the top ten products |
| Api.GetBrandMetrics | backend/app/main.py:99-106 | as above, for the brand metrics |
| Api.GetTimeMetrics | backend/app/main.py:108-115 | as above, for the time metrics |
| Api.SummaryBeforeUpload | backend/app/main.py:64-76 | before any upload, the summary is all zeros |
| Api.RejectedUploadKeepsData | backend/app/main.py:38-50 | a rejected ".txt" upload answers 400 "Unsupported file type", and the summary still describes the previous table |
| Api.UploadThenQuery | backend/app/main.py:38-115 | after a successful upload, the summary, platform and time endpoints answer from the uploaded table |
| Sorting.Sort | backend/app/services/sales.py:97 | sorting is a permutation of its input |
| Sorting.SortSorted | backend/app/services/sales.py:97 | under a total preorder the result is sorted |
| Sorting.SortDistinct | backend/app/services/sales.py:97 | sorting an association list keeps its keys and their distinctness |
| Table.GroupBy | backend/app/services/sales.py:66-68 | a group-by as an association list of tallies; stated by GroupByTallies, GroupByShape and GroupByConserves |
| Table.GroupByTallies | backend/app/services/sales.py:66-68 | the entry of a key in a group-by is the tally of the rows carrying that key |
| Table.GroupByShape | backend/app/services/sales.py:66-67 | a group-by has distinct keys, no empty group, and exactly the keys that occur |
| Table.GroupByConserves | backend/app/services/sales.py:66-68 | the groups add up to the tally of all rows whose key is present |
| Table.ToMap | backend/app/services/sales.py:74-77 | `to_dict()`; stated by ToMapKeys, ToMapAt and MapSumToMap |
| Table.ToMapKeys | backend/app/services/sales.py:74 | `to_dict` has exactly the keys of the series |
| Table.ToMapAt | backend/app/services/sales.py:74 | with distinct keys, `to_dict` maps each key to its entry's value |
| Table.MapSumToMap | backend/app/services/sales.py:74 | the values of `to_dict` add up to the series' sum |

## Left out

- SummaryOf, SummaryMetrics: `round(…, 2)` of revenue, aov and items per order is not modelled; the values are exact.
- PlatformMetricsValues: the rounding of aov and units per order to two decimals is not modelled.
- TimeMetricsCorrect: the rounding of growth and monthly revenue to two decimals is not modelled.
- GrowthAt, GrowthRecovers: IEEE signed zero and the rounding to two decimals are not modelled, so the recovered value is exact only without rounding; a zero over zero is NaN, and replaced by 0 as in the code.
- BrandMetricsCorrect: the order among brands with equal values is not pandas'. pandas sorts the group keys and then uses an unstable sort, so its tie order is unspecified. In the model the group-by folds from the last row and appends each new key at the end, so the key whose last row comes latest is listed first; the stable sort keeps that order among equal values.
- TopProductsOrdered: which of several equally ranked products `head` keeps follows the same order: the group-by fold's order, with the key whose last row comes latest first. pandas' choice is unspecified.
- Parsing CSV and Excel and coercing cells to numbers (`pd.to_numeric(errors="coerce")`) belong to pandas. The readers are parameters, and a cell that does not parse is `None`.
- A file missing one of the columns the metrics use raises `KeyError` in pandas; in the model every row carries all six fields.
- Serialising a NaN or infinite share to JSON fails in the framework; the model returns the `Float` value.
- Loader.Lower / Loader.LowerAppend: only ASCII letters are lower-cased. Beyond ASCII, Python's `str.lower()` depends on context (a final sigma) and can change the length of a string ('İ' becomes two characters), so it does not distribute over concatenation. No non-ASCII character lowers to any of `.`, `c`, `s`, `v`, `x` or `l`, so `Classify`'s result is the same as with Python's lower-casing.
- An upload whose filename is `None` (an attribute error in `.lower()`) is not modelled; filenames are strings.
- `main.py` imports the store from `app.utils.data_store`, which is not part of this model; the store of `services/data_store.py` is used in its place.
- The `/` health check and `/ping` return constant bodies and hold no logic; CORS and FastAPI wiring, the unused `routes/metrics.py` router, and the frontend are left out.
- Concurrent requests sharing the module-level slot are not modelled.
