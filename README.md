# Bike-sharing dashboard: a verified model of its aggregation core

The dashboard (`dashboard.py`) is a Streamlit script over an hourly bike-rental
table, with one record per observed hour. Each record has a date, an hour
0–23, a season, a weekday, a working-day flag, a weather code, and casual,
registered and total counts. The script selects the records between a start
and an end date. If none are selected it shows a warning and stops. Otherwise
it shows three totals and draws a chart for each of several aggregates:

- daily totals
- mean rentals per season, with the best season highlighted
- mean casual and registered counts
- hourly means for working days and for other days
- mean rentals per weather code during rush hours
- a count of days per demand level
- mean rentals per time-of-day cluster
- a count of hours per user-dominance label

This project models those computations in Dafny and proves what each one
promises. Rendering is not modelled.

Modules, one concern each:

- `Table` (table.dfy): the `Record` datatype, the `Column` names, column sums.
  Dates are integer day ordinals.
- `Labels` (labels.dfy): `hour_cluster`, the user-dominance label, and the
  right-closed binning that `pd.cut` does with its defaults (`right=True`,
  `include_lowest=False`). pandas raises an error unless the bin edges strictly
  increase.
- `Frames` (frames.dfy): boolean masks built from column comparisons, `&` and
  `|`, and row selection `df[mask]`. Proved: membership, multiplicity, order
  (subsequence), concatenation, composition, and sizes and sums of disjoint
  masks.
- `Groups` (groups.dfy): `groupby(...).sum()/.mean()` as groups with an exact
  sum and row count, in ascending key order as pandas sorts them. Also
  `idxmax` (first maximum) and `max`.
- `Columns` (columns.dfy): the three label columns the script writes
  (`time_cluster`, `user_dominance`, `demand_level`). Each is a method that
  fills an array parallel to its table, one row at a time.
- `Dashboard` (dashboard.dfy): the date-range selection, each view, and
  `Report`. `Report` returns the outcome of one run of the script:
  `NoDataWarning` (the warning and stop), `DemandBinsError` (the error pandas
  raises for bins that do not increase), or `Rendered` with every displayed
  value.

Means are exact: a sum and a count, or a `real` quotient. No floats are used.

The demand bins follow the code, which passes
`bins=[0, 2000, 5000, max]` to `pd.cut`. That gives right-closed bins
(0, 2000], (2000, 5000] and (5000, max]. So a daily total of exactly 2000 is
Low, and a total of 0 gets no label. When the largest daily total of the
selection is 5000 or less, these edges do not strictly increase and `pd.cut`
raises a `ValueError`. `Report` returns `DemandBinsError` for that case.
`DemandLevelOf` and `DemandLevelColumn` require a valid top edge (`5000 < top`).

## Model

| member | source | states |
|---|---|---|
| `Table.SumConcat` | dashboard.py:42-46 | a column total over two tables joined end to end is the sum of their totals |
| `Labels.HourCluster` | dashboard.py:185-193 | Morning Rush exactly for hours 7–9, Evening Rush exactly for 16–18, Daytime exactly for 10–15, Night / Off Peak exactly for every other integer; every hour gets exactly one label |
| `Labels.DisplayOrderIsComplete` | dashboard.py:197 | the display order of the cluster chart lists each of the four clusters exactly once |
| `Labels.UserDominance` | dashboard.py:224-229 | Registered Dominant exactly when registered > casual strictly; otherwise, ties included, Casual Dominant |
| `Labels.Cut` | dashboard.py:158-162 | pd.cut over strictly increasing edges: a result i means bins[i] < x <= bins[i+1] (right-closed); no label exactly when x <= the first edge or x > the last edge |
| `Labels.DemandBinsValid` | dashboard.py:160 | the edges [0, 2000, 5000, top] strictly increase exactly when top > 5000 |
| `Labels.DemandLevelOf` | dashboard.py:158-162 | Low exactly for (0,2000], Medium exactly for (2000,5000], High exactly for (5000,top], no label exactly for x <= 0 or x > top |
| `Labels.DemandLevelTotal` | dashboard.py:158-162 | with top > 5000, every total in (0, top] gets a label, and a total of 0 gets none |
| `Frames.Filter` | dashboard.py:25-28 | a row is in `df[mask]` exactly when it is in the table and satisfies the mask; the result is no longer than the table |
| `Frames.FilterIsSubsequence` | dashboard.py:25-28 | the selected rows keep their original order (the result is a subsequence of the table) |
| `Frames.FilterMultiplicity` | dashboard.py:25-28 | each selected row occurs as often as in the table; a row the mask rejects does not occur |
| `Frames.FilterConcat` | dashboard.py:25-28 | selecting from two tables joined end to end is joining their selections |
| `Frames.FilterKeepsAll` | dashboard.py:25-28 | a mask every row satisfies returns the table unchanged |
| `Frames.FilterSameMask` | dashboard.py:127-130 | two masks that agree on every row select the same rows |
| `Frames.FilterCompose` | dashboard.py:127-130 | selecting by `a` and then by `b` is selecting by `a & b` |
| `Frames.FilterDisjointEither` | dashboard.py:127-130 | for two masks no row satisfies together, `a \| b` selects as many rows, with the same column sum, as `a` and `b` together |
| `Groups.GroupBy` | dashboard.py:51 | a group-by has no more groups than the table has rows, and it is empty exactly when the table is |
| `Groups.GroupByShape` | dashboard.py:51 | the groups are in strictly increasing key order, so there is one per key; each holds at least one row; the keys are exactly the distinct values of the column |
| `Groups.GroupByAt` | dashboard.py:51 | the sum and count recorded for a key are the column sum and the number of rows whose key column equals it |
| `Groups.GroupByTotals` | dashboard.py:51 | the group sums add up to the column total; the group counts add up to the number of rows |
| `Groups.GroupByRow` | dashboard.py:51 | the group at each position is a value present in the table, with exactly that value's row sum and a positive row count |
| `Groups.GroupByMeans` | dashboard.py:62 | the mean column of a group-by is, at each position, the exact mean of the rows with that key |
| `Groups.FirstArgMax` | dashboard.py:63 | idxmax: a position whose value is at least every other value, and every earlier value is strictly smaller (the first maximum) |
| `Groups.MaxSum` | dashboard.py:160 | `Series.max()` of the totals: at least every total, and equal to one of them |
| `Columns.TimeClusterColumn` | dashboard.py:195 | the new column has one entry per row, and each is `hour_cluster` of that row's hour |
| `Columns.UserDominanceColumn` | dashboard.py:224-229 | the new column has one entry per row, and each is Registered Dominant exactly when that row's registered count exceeds its casual count |
| `Columns.DemandLevelColumn` | dashboard.py:158-162 | the new column has one entry per day, and each is the pd.cut label of that day's total; every total in (0, top] is labelled |
| `Dashboard.DateMaskKeeps` | dashboard.py:25-28 | the date mask holds exactly for rows dated in [start, end] |
| `Dashboard.SelectRangeExact` | dashboard.py:25-28 | the selection holds exactly the rows with start <= date <= end (both ends inclusive), with their multiplicities, in their original order |
| `Dashboard.SelectRangeEmpty` | dashboard.py:25-32 | the selection is empty exactly when no row is dated within [start, end] |
| `Dashboard.MetricsAddUp` | dashboard.py:42-46 | when every row's cnt is casual plus registered, Total Rentals is Casual Users plus Registered Users |
| `Dashboard.TotalSplitsAtDay` | dashboard.py:25-42 | the Total Rentals of [start, end] is the total of [start, mid] plus the total of [mid+1, end] |
| `Dashboard.DailyTotalsMatchMetric` | dashboard.py:51 | one daily row per distinct date, in date order; each row's total is that date's total; the rows add up to Total Rentals |
| `Dashboard.MaxSeason` | dashboard.py:62-63 | the highlighted season occurs in the selection; its mean is at least every season's mean; every lower-numbered season (earlier in group order) has a strictly smaller mean, so ties go to the first |
| `Dashboard.MaxSeasonIsFirstMaximum` | dashboard.py:62-63 | the first maximum of the mean column names a season with the largest mean, and every earlier season's mean is strictly smaller |
| `Dashboard.UserMeansOf` | dashboard.py:86 | each user-type mean times the row count equals that user type's total metric |
| `Dashboard.HourlyByDayTypeCell` | dashboard.py:110-118 | each point of each working-day line is the sum and positive count of the rows with that working-day flag and that hour |
| `Dashboard.RushHourIsRushClusters` | dashboard.py:127-130 | rush hours keep a row exactly when its hour is in 7..9 or 16..18, in order; they are exactly the rows labelled Morning Rush or Evening Rush, so their count and total are those two clusters' counts and totals added |
| `Dashboard.RushHourWeatherRow` | dashboard.py:139-148 | each weather bar is the sum and positive count of the rush-hour rows with that weather code |
| `Dashboard.DemandCountsPartition` | dashboard.py:171-177 | Low, Medium and High days plus unlabelled days add up to the number of days |
| `Dashboard.DemandAllLabelled` | dashboard.py:158-177 | when every daily total lies in (0, top], no day is unlabelled, so the three bars add up to the number of days |
| `Dashboard.DailyTotalsPositive` | dashboard.py:156-160 | with positive hourly counts, every daily total lies in (0, max] |
| `Dashboard.ClusterPartition` | dashboard.py:185-216 | the four clusters partition the rows: their row counts add up to the row count and their sums to Total Rentals |
| `Dashboard.ClusterStatsCover` | dashboard.py:197-216 | the cluster bars come in the display order, and their counts and sums add up to the row count and the total |
| `Dashboard.DominancePartition` | dashboard.py:224-243 | the Registered Dominant and Casual Dominant counts add up to the number of selected rows |
| `Dashboard.Report` | dashboard.py:25-162 | the run warns and stops exactly when no row is dated in range; it raises in `pd.cut` exactly when the selection is non-empty and its largest daily total is at most 5000 |
| `Dashboard.RenderedViews` | dashboard.py:42-243 | in a rendered run: the metrics are the column totals; the daily rows add up to Total Rentals; the highlighted season has the largest mean; the dominance and cluster counts add up to the selection's size; the demand counts add up to the number of days, with none unlabelled when every hourly count is positive |
| `Dashboard.SingleDayExample` | dashboard.py:25-51 | three hours of one day with counts 10, 5 and 15: selecting that day gives Total Rentals 30, and the daily rows add up to 30 |
| `Dashboard.HourExamples` | dashboard.py:127-193 | hour 8 is Morning Rush and hour 20 is Night / Off Peak; of one row at each hour, only the hour-8 row is a rush-hour row |
| `Dashboard.SmallRangeStopsInCut` | dashboard.py:156-162 | a selection whose only day totals 30 rentals ends in the `pd.cut` error instead of rendering |

## Left out

- Streamlit (sidebar, `date_input`, titles, captions, `st.metric`, `st.pyplot`): a UI framework. Only its outcomes are kept: the values shown, and the stop after the warning.
- matplotlib and seaborn (palettes, labels, figure sizes, drawing): rendering in foreign libraries. The means that seaborn computes inside three charts are modelled as sums and counts instead. These are the hourly working-day lines, the rush-hour weather bars and the cluster bars.
- The CSV read and `pd.to_datetime`: file I/O and date parsing. Dates are integer day ordinals, and the date range is taken as two parameters.
- Floating point: means are exact `real` quotients of an exact sum and count.
- 64-bit integer overflow of pandas sums: sums are unbounded integers. Real daily and total counts are far below the limit.
- The palette dictionaries: the highlighted season is `MaxSeason`, and a palette only colours it.
- The season × weekday pivot and a "maximum day" value: they do not appear in `dashboard.py`, so they are not part of this model.
- `cnt = casual + registered`: the script never checks this. It appears only as the precondition of `Dashboard.MetricsAddUp`.
- A `date_input` that returns a single date: the tuple unpacking fails inside the UI layer. The model takes any two integers, and an empty range (start after end) gives `NoDataWarning`.
- `DemandBinsError` records only that the run fails. The views drawn before the failing `pd.cut` call are not kept in that outcome.
- Cluster bars with no rows: seaborn draws nothing there. The model keeps a count of 0 for them.
- Adding a column in place: pandas adds a column to an existing frame. Here each method returns a new array parallel to the table instead.
