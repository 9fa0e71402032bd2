# Amazon sales dashboard: the filter-and-aggregate core

A Streamlit dashboard loads one sales export. Its sidebar narrows the table
by year, month, quarter, day and season. It then shows three metric cards
(Total Profit, Total Quantity, Total Orders) and the data behind four pages
of charts:

- **Analysis By Time**: profit per year, quarter, month and day, over the
  filtered rows. The bars are coloured green for the maximum, red for the
  minimum and light gray otherwise.
- **Products**: quantity and revenue per SKU, category, size and style. The
  SKU and style views keep only the top 10.
- **Metrics**: the ten days with the highest sales and the ten with the
  highest quantity, plus a scatter of quantity against amount per (year, month, day) key.
- **State**: the ten states with the most order lines, the most quantity and
  the most revenue.

Pages 2 to 4 use the whole table, not the filtered one.

The model is in six modules:

- `Rows` (rows.dfy): boolean-mask selection (`Where`), column sums (`Sum`)
  and the order-preserving subsequence relation.
- `Sales` (sales.dfy): the `Record` datatype, one field per column the core
  reads. Amount is an exact `int` (cents) and Qty is a `nat`.
- `Sidebar` (sidebar.dfy): the user's selections, and the filter pipeline as
  an imperative method. The method reassigns a local sequence under five
  guards, as the script does. It is proved equal to one filtering pass by
  the conjunction of the active criteria.
- `Aggregation` (aggregation.dfy): group-by-sum, `value_counts`,
  sort-descending and `head(n)`. A grouped result is a sequence of
  (key, total) pairs.
- `Highlight` (highlight.dfy): the green/red/lightgray rule.
- `Dashboard` (dashboard.dfy): the metric cards and the data of each page.

In `Selection`, the year box is a `Choice<int>`. Its `Placeholder` stands
for the string 'Select', because the box offers 'Select' followed by the
numeric years. The quarter and season boxes are compared with the literal
string "Select", as the code does.

## Model

| member | source | states |
|---|---|---|
| `Sidebar.ApplySidebarFilters` | amazon.py:27-44 | Starting from a copy of the table and applying the five guarded filters in turn gives the same rows as filtering once by the conjunction of the active criteria. |
| `Sidebar.Filtered` | amazon.py:31-44 | The filtered table is an order-preserving subsequence of the table. A row is in it exactly when it is in the table and meets every active criterion, and every matching row is kept as many times as it occurs in the table. |
| `Sidebar.NothingSelectedKeepsAll` | amazon.py:28-44 | With year, quarter and season on 'Select' and the month and day lists empty, the filtered table is the whole table. |
| `Sidebar.FilteredRowsMeetSelection` | amazon.py:31-44 | A row is kept iff it is in the table, its year, quarter and season equal the active selections, and its month and day are in the non-empty picked lists. |
| `Sidebar.FilteringOnlyDrops` | amazon.py:28-44 | Filtering never adds or changes rows: the result is no longer than the table, and its multiset is contained in the table's. |
| `Sidebar.CategoryAndSizeIgnored` | amazon.py:23-44 | The collected category and size selections never change the filtered table. |
| `Rows.Where` | amazon.py:32 | Boolean-mask selection is an order-preserving subsequence of the table, holding only rows where the mask holds and every row where it holds. |
| `Rows.WhereCounts` | amazon.py:32 | Selection keeps each row the mask holds for as many times as it occurs in the table, and no copy of any other row. |
| `Rows.WhereWhere` | amazon.py:31-44 | Selecting by one mask and then another is selecting once by both. |
| `Dashboard.MetricCards` | amazon.py:54-66 | Total Profit is the sum of Amount over the filtered rows, Total Quantity the sum of Qty (never negative), and Total Orders the number of rows. All three are zero when no row matches. |
| `Dashboard.CardsAdd` | amazon.py:54-66 | The cards of two tables put together are the sums of the cards of each. |
| `Dashboard.NothingSelectedShowsWholeTable` | amazon.py:28-66 | With nothing selected, the cards show the Amount sum, Qty sum and row count of the whole table. |
| `Dashboard.CategoryAndSizeNeverShow` | amazon.py:23-163 | The category and size selections change neither the metric cards nor any page-1 chart. |
| `Aggregation.GroupSum` | amazon.py:78 | Group-by-sum has exactly one entry per distinct key present in its input. The total held for each key is the sum of the measure over that key's rows. All totals together add up to the sum over the whole input. |
| `Aggregation.GroupSumEntries` | amazon.py:97 | Every entry's total is the sum over the rows with the entry's key. A key has an entry iff some row carries it. |
| `Aggregation.Accumulate` | amazon.py:78-162 | Adding one row's measure to a grouped result adds it to that key's total and to the overall total, and leaves other keys unchanged. |
| `Aggregation.AccumulateKeys` | amazon.py:78-162 | Adding one row adds its key to the key set and keeps the keys distinct. |
| `Aggregation.CountsAreRowCounts` | amazon.py:550 | `value_counts` gives each key the number of rows with that key. |
| `Aggregation.SameKeyOrder` | amazon.py:512 | Two group-by-sums over the same table and key list the same keys in the same order, so their entries pair up. |
| `Aggregation.SortDesc` | amazon.py:245 | Sorting descending returns a permutation of the groups with non-increasing totals, the same key set, and distinct keys preserved. |
| `Aggregation.InsertOrdered` | amazon.py:175-414 | Inserting an entry into a result with non-increasing totals keeps it non-increasing. |
| `Aggregation.TopN` | amazon.py:175 | The top-n view has min(n, groups) entries with non-increasing totals, all taken from the groups (all of them when there are at most n). No omitted group has a larger total than a kept one. |
| `Aggregation.SortedPrefixIsTop` | amazon.py:175-610 | Taking the first entries of a sorted permutation leaves out no group whose total is larger than that of a kept group. |
| `Highlight.Colours` | amazon.py:81 | One colour per group, in group order. Green iff the total is a maximum. Red iff it is a minimum and not a maximum. Light gray otherwise. |
| `Highlight.Max` | amazon.py:79 | The maximum is one of the totals and no total exceeds it. |
| `Highlight.Min` | amazon.py:80 | The minimum is one of the totals and no total is below it. |
| `Highlight.SingleGroupIsGreen` | amazon.py:78-163 | With a single group, its one bar is green. |
| `Highlight.UniformTotalsAreGreen` | amazon.py:78-163 | When all totals are equal, every bar is green and none is red. |
| `Highlight.SomeBarIsGreen` | amazon.py:78-163 | A non-empty chart always has a green bar. |
| `Highlight.SomeBarIsRed` | amazon.py:78-163 | A chart whose totals are not all equal has a red bar. |
| `Dashboard.ProfitChart` | amazon.py:78-81 | A page-1 chart has one entry per key present in the filtered rows, holding that key's Amount sum. Its totals add up to the Total Profit card. A bar is green iff its total is the largest, red iff it is the smallest and some total is larger, and light gray iff some total is smaller and some larger. |
| `Dashboard.ChartColours` | amazon.py:78-81 | The colour list built beside a grouped chart marks a bar green iff its total is the largest, red iff it is the smallest and not the largest, light gray otherwise. |
| `Dashboard.TimeAnalysis` | amazon.py:72-168 | The four page-1 charts are the profit charts by year, quarter, month and day over the filtered rows, so each carries the key, sum and colour rule of `Dashboard.ProfitChart`, and each adds up to the Total Profit card. |
| `Dashboard.Products` | amazon.py:170-445 | The SKU and style views are the top 10 groups by Qty or Amount. The category and size views are all groups, sorted by decreasing total. |
| `Dashboard.Metrics` | amazon.py:447-481 | The two day views are the top 10 days by Amount and by Qty, and the scatter is `Dashboard.DailyPoints` of the whole table. |
| `Dashboard.DailyPoints` | amazon.py:512-537 | The scatter has one point per distinct (year, month, day) present in the table. Each point carries that key's Qty sum and Amount sum. |
| `Dashboard.States` | amazon.py:548-612 | The top-10 states by order count, Qty and Amount. Each count is the number of rows for that state. |
| `Dashboard.CategoryExample` | amazon.py:279 | Rows (A, 10), (B, 5), (A, 3), grouped by category on Amount and sorted descending, give [(A, 13), (B, 5)]. |

## Left out

- CSV loading (amazon.py:6) is file input. The model starts from an in-memory `seq<Record>`, with every Qty present and every Amount exact.
- The whole-table metrics at amazon.py:9-10 are never shown: `Total_Profit` (line 9) is overwritten at line 54 before it is read, and `Total_Qty` (line 10) is never used.
- All Streamlit widget construction, page setup, markdown/HTML, column and tab layout, and the page-navigation radio and dictionary dispatch (amazon.py:12-24, 50-69, 636-649) are presentation. The sidebar's options lists are not modelled: a `Selection` holds whatever was picked.
- All Plotly figure building and styling are calls into a charting library. The unused Category/Size scatter at amazon.py:540-546 is built but never displayed.
- Rounding and number formatting (`round(..., 2)`, the `$x:,.2f` and `x:,.0f` strings, the month chart's coloured labels at amazon.py:119-123) are display concerns. The month labels follow the same max/min rule as `Highlight.Colours`.
- Aggregation.GroupSum: lists groups in the order their keys first appear, while pandas `groupby` lists them sorted by key. No contract depends on this order except that the colours follow the groups.
- Aggregation.SortDesc: promises no order among equal totals, because `sort_values` uses a non-stable sort by default. Any fixed tie order would overstate what the code guarantees.
- Dashboard.Metrics: models the numeric Amount and Qty columns of the whole-frame `groupby('Order_Day').sum()` at amazon.py:448 and 480 (and of the three-key grouping at 512). Its other columns depend on how pandas sums non-numeric data.
- Missing values (NaN keys dropped by `groupby`, `count()` skipping missing Qty) are not modelled: every field of a `Record` is present.
- Highlight.Max, Highlight.Min: require a non-empty column, where pandas `.max()`/`.min()` of an empty column give NaN. The difference is never visible: with no rows, `Highlight.Colours` returns the empty list without computing either.
- Floating point is not modelled: Amount is an exact integer number of cents, so sums and the equality tests of the colour rule are exact.
