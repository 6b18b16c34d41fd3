# Comparative layout explorer: data resolution, in Dafny

The model covers the layer of the comparative layout explorer that turns two chart specifications (A and B) and a comparison specification (C) into what gets drawn. The drawing itself is not modelled. The layer has four parts:

- **Grouping and aggregation.** `getAggValues` groups rows by a key field and reduces each group with sum, mean, median, min, max or count. Any other aggregate is treated as sum. `isBarChart` tests a specification's field types.
- **Per-chart data and differences.** `getChartData` resolves each chart's rows:
  - A heatmap pivots on (x, y).
  - A bar chart aggregates its value field per category.
  - A scatterplot aggregates per colour group, or passes its rows through unchanged.
  - Under an explicit encoding, A's rows are replaced by the difference from B. Rows are aligned by category, by (x, y) cell, by colour group or by row index.
- **Domains.** `getDomainData` computes one chart's x, y and colour domains, optionally followed by a union partner's. `getDomain` merges the two charts' domains:
  - It concatenates them under x, y and colour consistency.
  - It then applies the layout exceptions: stacked-bar totals, the shared colour of chart-unit scatterplots, and nesting. With nesting, B's domain becomes a list or a grid of cells.
- **Palette helpers.** These are in `default-design-manager.ts` and in `design-settings.ts`, a second design file with its own variants of the same helpers. They slice colour ranges out of a fixed 10 + 10 colour palette by count and offset. They also pair two charts' colour scales and give the chart's total size.

Files and modules:

| file | module | contents |
|---|---|---|
| `wrappers.dfy` | `Wrappers` | `Option` and `Result` |
| `values.dfy` | `Values` | data cells; rows as `map<string, Value>`; JavaScript `-`, `===` and `find`; distinct values in first-appearance order |
| `specs.dfy` | `Specs` | field definitions, encodings, chart kinds, comparison specifications, faults |
| `aggregation.dfy` | `Aggregation` | the reducers, `d3.nest` grouping, `getAggValues`, `isBarChart` |
| `chart_data.dfy` | `ChartDataManager` | `getChartData` and the four difference alignments |
| `domains.dfy` | `DomainManager` | `getDomainData`, `getDomain`, stacked totals, nesting |
| `palette.dfy` | `Palette` | the colour lists, JavaScript `slice`, the shared index and size arithmetic |
| `default_design.dfy` | `DefaultDesign` | the helpers of `default-design-manager.ts` |
| `design_settings.dfy` | `DesignSettings` | the helpers of `design-settings.ts` |

How the source's runtime behaviour is represented:

- A JavaScript `TypeError` becomes a `Failure` of `Result` carrying a `Fault`. This covers reading a field of `undefined`, a `find` that matches nothing, and `concat` on an undefined domain.
- Absent optional arguments become `Option`.
- `getPivotData` is not part of this model: it is a function-valued parameter `pivot` of every operation that calls it.

## Model

| member | source | states |
|---|---|---|
| Aggregation.Reduce | src/components/visualizations/index.ts:19-36 | `count` is the group's row count; `sum` and every unnamed or unrecognised aggregate always give a number; `mean`, `median`, `min` and `max` are undefined exactly when the value field holds no number in the group |
| Aggregation.AddRowNewKey | src/components/visualizations/index.ts:17-18 | a row whose key no group has yet opens a new group at the end, holding just that row |
| Aggregation.AddRowKnownKey | src/components/visualizations/index.ts:17-18 | a row whose key is already grouped is appended to the first group of that key, and no other group changes |
| Aggregation.GetAggValues | src/components/visualizations/index.ts:16-38 | one entry per distinct key in first-appearance order; each entry's value is the reduction of exactly the rows carrying that key |
| Aggregation.NestIsGrouping | src/components/visualizations/index.ts:17-18 | the `d3.nest` grouping built row by row has one group per distinct key, holding exactly that key's rows in input order |
| Aggregation.NestPartitionsRows | src/components/visualizations/index.ts:17-18 | the groups together hold every input row exactly once (their sizes sum to the input length) |
| Aggregation.EveryRowInOneGroup | src/components/visualizations/index.ts:16-38 | every input row belongs to the group of its own key, and no other entry carries that key |
| Aggregation.RowInItsGroup | src/components/visualizations/index.ts:18 | a row is among the rows selected by its own key |
| Aggregation.RowsWithKeyHaveKey | src/components/visualizations/index.ts:18 | every row of a group carries the group's key |
| Aggregation.CountsSumToInputLength | src/components/visualizations/index.ts:31-32 | `count` gives each group's row count, and the counts over all groups sum to the number of input rows |
| Aggregation.ReduceSumIsColumnTotal | src/components/visualizations/index.ts:21-22 | `sum` is the arithmetic total of the value field over the group, with non-numbers adding nothing |
| Aggregation.SumOfColumnIsTotal | src/components/visualizations/index.ts:21-22 | summing the numeric cells of a column equals the row-by-row total of that column |
| Aggregation.ReduceDefaultIsSum | src/components/visualizations/index.ts:33-34 | an absent or unrecognised aggregate reduces a group exactly as `sum` does |
| Aggregation.DefaultAggregateIsSum | src/components/visualizations/index.ts:33-34 | `getAggValues` with an absent or unrecognised aggregate returns the same entries as with `sum` |
| Aggregation.ReduceMinMax | src/components/visualizations/index.ts:27-30 | min and max are undefined exactly when the group has no number; otherwise both are cells of the group, min is no greater and max no less than every numeric cell |
| Aggregation.ReduceMedian | src/components/visualizations/index.ts:25-26 | the median is defined exactly when min is, and lies between min and max |
| Aggregation.MedianOf | src/components/visualizations/index.ts:25-26 | the median of a non-empty list of numbers lies between its least and greatest element, and for an odd count is one of the numbers |
| Aggregation.ReduceMeanIsAverage | src/components/visualizations/index.ts:23-24 | `mean` of any group is undefined exactly when no row holds a number; otherwise it is the row-by-row total of the numbers divided by how many rows hold one, so null, undefined and NaN cells count in neither |
| Aggregation.NumbersCountIsNumericCount | src/components/visualizations/index.ts:23-24 | the numbers reduced over are exactly as many as the rows counted one by one as holding a number |
| Aggregation.ReduceMean | src/components/visualizations/index.ts:23-24 | on an all-numeric non-empty group, `mean` is the group's sum divided by its count |
| Aggregation.SortReals | src/components/visualizations/index.ts:25-26 | the sort behind the median is ordered and is a permutation of its input |
| Aggregation.MinOf | src/components/visualizations/index.ts:27-28 | the least element is a member of the list and no greater than any element |
| Aggregation.MaxOf | src/components/visualizations/index.ts:29-30 | the greatest element is a member of the list and no less than any element |
| Aggregation.Numbers | src/components/visualizations/index.ts:22 | the values reduced are exactly those of the numeric cells, no more of them than there are cells, and one per cell when every cell is numeric; string cells are not coerced (see Left out) |
| Aggregation.AggRows | src/components/visualizations/data-handler/chart-data-manager.ts:33-37 | the aggregated rows carry one row per distinct key, with each listed value field reduced over that key's rows |
| Aggregation.AggRowsKeysDistinct | src/components/visualizations/data-handler/chart-data-manager.ts:33-37 | the aggregated rows' key column is the distinct keys in first-appearance order, without repeats |
| Aggregation.WriteReductions | src/components/visualizations/data-handler/chart-data-manager.ts:33 | an aggregated row holds its key and one reduction per value field, and nothing else changes |
| Values.Distinct | src/components/visualizations/data-handler/domain-manager.ts:49 | the distinct values hold no repeat, contain exactly the input's values, and are no longer than the input |
| Values.DistinctFirstAppearance | src/components/visualizations/data-handler/domain-manager.ts:49 | distinct values come in the order of their first appearance |
| Values.Minus | src/components/visualizations/data-handler/chart-data-manager.ts:62 | JavaScript `-` on cells: a number exactly when both sides read as numbers (null as 0), then the difference; NaN otherwise |
| Values.MinusAntiSymmetric | src/components/visualizations/data-handler/chart-data-manager.ts:62 | subtracting two numbers in the other order negates the result |
| Values.MatchKey | src/components/visualizations/data-handler/chart-data-manager.ts:62 | `find` by strict key equality returns the first matching row, or nothing when no row matches |
| Values.MatchCell | src/components/visualizations/data-handler/chart-data-manager.ts:81-82 | `find` by an (x, y) pair returns the first row matching both, or nothing when none does |
| Values.Column | src/components/visualizations/data-handler/domain-manager.ts:50 | `map(d => d[field])` has one cell per row, each that row's field |
| ChartDataManager.ResolveChart | src/components/visualizations/data-handler/chart-data-manager.ts:16-38 | a heatmap without a colour faults, otherwise it pivots; a bar chart aggregates the nominal field's groups with the value channel's aggregate; an aggregated scatterplot aggregates x and y per colour group (faulting without colour); an unaggregated one passes its rows through; other kinds get no data |
| ChartDataManager.GetChartData | src/components/visualizations/data-handler/chart-data-manager.ts:7-134 | without B only A is resolved and B stays undefined; without an explicit encoding no difference step runs; B's resolved data is never altered; any success implies A resolved |
| ChartDataManager.Difference | src/components/visualizations/data-handler/chart-data-manager.ts:43-131 | charts of different or unknown kinds keep A's rows; same-kind charts with missing data fault; bars align by category, heatmaps by (x, y) cell, aggregated scatterplots by colour group and other scatterplots by index, each succeeding exactly when its alignment does; a heatmap pair faults without a colour on either side, a scatterplot pair without one on the side its alignment reads |
| ChartDataManager.BarDifference | src/components/visualizations/data-handler/chart-data-manager.ts:44-67 | succeeds exactly when every A category has a B match; then one row per A row holding A's key and A's value minus the matched B value; otherwise the unguarded `find` faults |
| ChartDataManager.BarDifferenceSucceedsIff | src/components/visualizations/data-handler/chart-data-manager.ts:56-66 | on aggregated bars the difference succeeds exactly when every category of A is a (non-NaN) category of B |
| ChartDataManager.BarDifferenceIsCategoryGap | src/components/visualizations/data-handler/chart-data-manager.ts:56-66 | each derived bar holds A's category and A's aggregate minus B's aggregate for that same category |
| ChartDataManager.ExplicitBarsShowCategoryGap | src/components/visualizations/data-handler/chart-data-manager.ts:43-67 | through the whole `getChartData`, explicit bar charts show per category A's aggregate minus B's, while B keeps its own aggregated bars |
| ChartDataManager.BarDifferenceAntiSymmetric | src/components/visualizations/data-handler/chart-data-manager.ts:56-66 | swapping the two bar charts negates the difference of every category both aggregate to a number |
| ChartDataManager.BarSelfDifferenceIsZero | src/components/visualizations/data-handler/chart-data-manager.ts:56-66 | comparing a bar chart with itself gives zero for every numeric category |
| ChartDataManager.MatchKeyFound | src/components/visualizations/data-handler/chart-data-manager.ts:62 | a key lookup finds a row exactly when the key is not NaN and occurs in B's key column |
| ChartDataManager.MatchedBarRowHasKey | src/components/visualizations/data-handler/chart-data-manager.ts:62 | the aggregated B row a key lookup finds carries B's reduction for exactly that key |
| ChartDataManager.BarDifferenceSucceedsOnRows | src/components/visualizations/data-handler/chart-data-manager.ts:56-66 | the row-level success condition coincides with every A key being found among B's rows |
| ChartDataManager.CellDifference | src/components/visualizations/data-handler/chart-data-manager.ts:81-83 | two null-or-undefined cells give undefined; two numbers give their difference; null counts as 0 against a number; anything else is undefined or NaN |
| ChartDataManager.CellDifferenceAntiSymmetric | src/components/visualizations/data-handler/chart-data-manager.ts:81-83 | swapping the two heatmaps negates every numeric cell difference |
| ChartDataManager.HeatmapDifference | src/components/visualizations/data-handler/chart-data-manager.ts:68-88 | succeeds exactly when every A cell has a B cell at the same (x, y); then one row per A cell with A's x and y and the cell difference of the colours |
| ChartDataManager.ScatterGroupDifference | src/components/visualizations/data-handler/chart-data-manager.ts:89-108 | succeeds exactly when every A colour group has a B match; then one row per A group with A's colour and the x and y differences to the matched B group |
| ChartDataManager.ScatterIndexDifference | src/components/visualizations/data-handler/chart-data-manager.ts:109-129 | succeeds exactly when B has at least as many rows as A; row i is A's colour with A's x and y minus B's row i |
| ChartDataManager.ExplicitHeatmapsShowCellGap | src/components/visualizations/data-handler/chart-data-manager.ts:68-88 | through the whole `getChartData`, explicit heatmaps have a colour on both sides, B keeps its pivot, and each of A's cells holds the cell difference to B's cell at the same (x, y) |
| ChartDataManager.ExplicitScattersShowPointGap | src/components/visualizations/data-handler/chart-data-manager.ts:109-129 | through the whole `getChartData`, explicit unaggregated scatterplots need A's colour and B at least as many points, and A's i-th point becomes its difference to B's i-th point |
| ChartDataManager.ScatterSelfDifferenceIsZero | src/components/visualizations/data-handler/chart-data-manager.ts:116-126 | comparing a scatterplot with itself by index gives zero x and y for every numeric row |
| DomainManager.AggregateDomain | src/components/visualizations/data-handler/domain-manager.ts:209-217 | an aggregated position domain has one value per group, each that group's reduction |
| DomainManager.PositionDomain | src/components/visualizations/data-handler/domain-manager.ts:195-223 | nominal gives distinct values; raw quantitative against quantitative gives the column; aggregated against quantitative groups by colour (faulting without one); aggregated against nominal groups by the other axis; other combinations leave the domain undefined |
| DomainManager.ColorDomain | src/components/visualizations/data-handler/domain-manager.ts:225-249 | no colour gives an empty domain; nominal gives distinct values; quantitative over two nominal axes pivots, otherwise empty; an ordinal colour leaves it undefined |
| DomainManager.SingleDomainData | src/components/visualizations/data-handler/domain-manager.ts:186-249 | faults exactly when an aggregated quantitative axis faces a quantitative one with no colour to group by; otherwise assembles the x, y and colour domains |
| DomainManager.Concat | src/components/visualizations/data-handler/domain-manager.ts:253-264 | `concat` faults on an undefined own domain; otherwise the own list comes first, followed by the other list (or one undefined element) |
| DomainManager.GetDomainData | src/components/visualizations/data-handler/domain-manager.ts:251-265 | without a union partner the single-chart domains; with one, each domain is the own list followed by the partner's, and it fails exactly when a needed domain is missing |
| DomainManager.ChannelDomain | src/components/visualizations/data-handler/domain-manager.ts:47-50 | a nominal channel gives the distinct values of the field's column in first-appearance order; any other gives one value per row |
| DomainManager.CommonAxes | src/components/visualizations/data-handler/domain-manager.ts:17-52 | missing chart data leaves the default empty domains; each encoded channel gets its channel domain; no colour channel leaves the colour domain empty |
| DomainManager.MissingDataLeavesDomainsEmpty | src/components/visualizations/data-handler/domain-manager.ts:17-73 | through the whole `getDomain` (no stacked-bar or shared-colour exception), A without resolved data gets, per channel, B's list under that channel's consistency and the default empty list otherwise; with no consistency at all, A's domains are exactly the empty defaults |
| DomainManager.MergeConsistency | src/components/visualizations/data-handler/domain-manager.ts:54-73 | each consistency flag makes both charts' domain on that channel A's list followed by B's, without deduplication; a cleared flag leaves each chart its own |
| DomainManager.GetDomain | src/components/visualizations/data-handler/domain-manager.ts:27-181 | fails exactly when either chart's own domain data fails; B's result is undefined exactly under an explicit encoding |
| DomainManager.XConsistencyConcatenates | src/components/visualizations/data-handler/domain-manager.ts:55-60 | under x consistency (unless a stacked bar re-derives x) A's x domain is A's list followed by B's, and B's single axis record holds the same list |
| DomainManager.YConsistencyConcatenates | src/components/visualizations/data-handler/domain-manager.ts:61-66 | the same for y |
| DomainManager.XInconsistentKeepsOwn | src/components/visualizations/data-handler/domain-manager.ts:44-60 | without x consistency each chart keeps the x domain of its own data |
| DomainManager.SharedColorConcatenates | src/components/visualizations/data-handler/domain-manager.ts:67-73 | a shared colour gives both charts A's colour list followed by B's, unless the chart-unit scatterplot exception replaces it |
| DomainManager.StackedOverridesValueAxis | src/components/visualizations/data-handler/domain-manager.ts:79-92 | a stacked bar sets both charts' value axis to the stacked totals, whatever the consistency flags, and B keeps one axis record |
| DomainManager.StackedSumsPerCategory | src/components/visualizations/data-handler/domain-manager.ts:79-92 | the stacked totals hold one value per category of either chart (A's first, then B's new ones), each A's bar plus B's bar for that category |
| DomainManager.SumByKeysOfBars | src/components/visualizations/data-handler/domain-manager.ts:85-91 | summing the concatenated aggregated bars by category gives per category A's bar plus B's bar |
| DomainManager.SumByKeys | src/components/visualizations/data-handler/domain-manager.ts:85-91 | one sum per distinct category, in first-appearance order, each the total over the rows of that category |
| DomainManager.StackedKeys | src/components/visualizations/data-handler/domain-manager.ts:83-86 | the categories of the concatenated bars are A's categories followed by B's |
| DomainManager.StackedTotal | src/components/visualizations/data-handler/domain-manager.ts:83-86 | a category's total over the concatenated bars is A's bar plus B's bar |
| DomainManager.ScatterSharedColor | src/components/visualizations/data-handler/domain-manager.ts:94-98 | chart-unit scatterplots with a shared colour both take A's own colour domain if A has colour, else B's, else `[""]` |
| DomainManager.FieldsByType | src/components/visualizations/data-handler/domain-manager.ts:107-108 | the field list holds exactly the encoded channels of the requested type, each channel at most once, in x, y, colour order |
| DomainManager.FilterColor | src/components/visualizations/data-handler/domain-manager.ts:109-110 | the filter keeps exactly the fields on (or exactly those off) the colour channel |
| DomainManager.FilterColorKeepsOrder | src/components/visualizations/data-handler/domain-manager.ts:109-110 | the filtered fields stay in the channel order of the input |
| DomainManager.PartitionFields | src/components/visualizations/data-handler/domain-manager.ts:105-110 | the partition fields are A's nominal fields in channel order; next to an aggregated B, a bar chart A loses exactly its colour field |
| DomainManager.PartitionChannel | src/components/visualizations/data-handler/domain-manager.ts:111-155 | an aggregated B counts cells by A's colour when A is a scatterplot; when neither that nor a colour partition field applies, the first partition field's channel; over an unaggregated B it is always a channel A encodes with a nominal field |
| DomainManager.QuanValues | src/components/visualizations/data-handler/domain-manager.ts:115-120 | each quantitative field maps to its pivoted values, the last entry for a repeated field taking effect |
| DomainManager.ApplyQuans | src/components/visualizations/data-handler/domain-manager.ts:127-129 | setting B's quantitative channels leaves every other channel as it was |
| DomainManager.ApplyQuansLastWins | src/components/visualizations/data-handler/domain-manager.ts:127-129 | a channel ends up with the values of the last quantitative field set on it |
| DomainManager.ApplyQuansPivoted | src/components/visualizations/data-handler/domain-manager.ts:115-129 | with distinct channels, each quantitative channel holds its field's pivoted values and every other channel is untouched |
| DomainManager.AggregatedCellsArePivoted | src/components/visualizations/data-handler/domain-manager.ts:105-148 | over an aggregated B every nested cell holds B's quantitative channels pivoted over A's rows by the partition fields |
| DomainManager.UnaggregatedCellsAreGlobal | src/components/visualizations/data-handler/domain-manager.ts:151-177 | over an unaggregated B every nested cell holds B's global x and y columns and keeps the colour domain |
| DomainManager.NestedB | src/components/visualizations/data-handler/domain-manager.ts:124-177 | one partition field gives a list of cells and two give a grid, every cell identical; any other count keeps B's single record |
| DomainManager.NestingCellsPerPartitionValue | src/components/visualizations/data-handler/domain-manager.ts:151-162 | without consistency, a one-field nesting over an unaggregated B gives B exactly one cell per distinct value of A's partition field in A's resolved rows |
| DomainManager.Exceptions | src/components/visualizations/data-handler/domain-manager.ts:79-179 | a stacked bar sets both charts' value axis to the stacked totals and leaves every other channel and B's single record alone; otherwise chart-unit scatterplots with a shared colour change only the colour, to A's, else B's, else `[""]`; otherwise A is untouched and B is nested exactly when nesting applies |
| DomainManager.IndexBarChartHasNoPositionDomains | src/components/visualizations/index.ts:12-14 | a specification `isBarChart` accepts (ordinal x, quantitative y) gets no x or y domain from its own domain data, so uniting it with a partner faults with an undefined domain |
| DomainManager.NestingCellCount | src/components/visualizations/data-handler/domain-manager.ts:101-179 | nesting keeps A's merged domains; B gets one cell per value of A's partition domain, or an N×M grid for two partition fields |
| DomainManager.SetChannel | src/components/visualizations/data-handler/domain-manager.ts:85 | writing one channel sets that channel and leaves the other two unchanged |
| Palette.JsSlice | src/components/visualizations/default-design-manager.ts:66-69 | `slice` returns the in-range subsequence, nothing when the end does not pass the start, and only elements of the list |
| Palette.ClampedPrefix | src/components/visualizations/default-design-manager.ts:49-54 | the first n colours for n up to the list length, but one fewer than the length when more are asked for |
| Palette.ConstantIndex | src/components/visualizations/default-design-manager.ts:101 | an absent or non-positive index becomes 1; an index past ten is reduced by ten; the result is at least 1 |
| Palette.AdjacentSlicesDisjoint | src/components/visualizations/default-design-manager.ts:61-69 | two adjacent slices of a repeat-free list share no element |
| Palette.SliceOne | src/components/visualizations/default-design-manager.ts:104 | `slice(i - 1, i)` is the i-th element, or nothing past the end |
| DefaultDesign.ChartTotalSizeValue | src/components/visualizations/default-design-manager.ts:8-15 | the total size is the plotting area plus the margins, 430 by 400 |
| DefaultDesign.BarColorDarker | src/components/visualizations/default-design-manager.ts:49-51 | n darker shades for n ≤ 10, but nine when more are asked for |
| DefaultDesign.BarColorDarkest | src/components/visualizations/default-design-manager.ts:52-54 | n darkest shades for n ≤ 10, but nine when more are asked for |
| DefaultDesign.DarkerNotMonotone | src/components/visualizations/default-design-manager.ts:49-54 | asking for eleven shades yields fewer than asking for ten |
| DefaultDesign.QuantitativeColor | src/components/visualizations/default-design-manager.ts:56-59 | a two-stop ramp, the alternative one exactly when asked for |
| DefaultDesign.NominalColor | src/components/visualizations/default-design-manager.ts:60-71 | an absent or zero second count gives the first min(n, 10) categorical colours; a positive one gives min(n2, 10) palette colours from offset min(n, 10) |
| DefaultDesign.ConsistentColor | src/components/visualizations/default-design-manager.ts:72-89 | A's scale depends only on A; under unconnected and same, B's scale is built like A's from B's values; under shared, B's nominal range continues the palette after A's and its ramp is the alternative one |
| DefaultDesign.SharedColorsDisjoint | src/components/visualizations/default-design-manager.ts:83-86 | under a shared colour two nominal charts' ranges have no colour in common |
| DefaultDesign.UnsharedBIsIndependent | src/components/visualizations/default-design-manager.ts:78-82 | under unconnected and same, B's scale is the scale B would get as A, independent of A |
| DefaultDesign.Color | src/components/visualizations/default-design-manager.ts:90-98 | the domain is the input's values without repeats; the range is the categorical prefix of that size (capped at ten), or the darker prefix when darker is asked for |
| DefaultDesign.ColorOnePerValue | src/components/visualizations/default-design-manager.ts:90-98 | with at most ten distinct values each value gets its own colour |
| DefaultDesign.ConstantColor | src/components/visualizations/default-design-manager.ts:100-105 | indices up to 0 give the first colour, 1 to 10 that categorical colour, 11 to 20 the same ten again, and past 20 an empty range |
| DesignSettings.ChartTotalSizeValue | src/components/visualizations/design-settings.ts:22-29 | the total size is the plotting area plus the margins, 430 by 360 |
| DesignSettings.BarColor | src/components/visualizations/design-settings.ts:59-67 | without a second count the first n palette colours (nineteen beyond twenty); a second count of zero gives nothing; otherwise n2 colours from offset n, cut at entry nineteen |
| DesignSettings.ZeroSecondCountIsEmpty | src/components/visualizations/design-settings.ts:61-66 | a second count of zero yields an empty range here, while `getNominalColor` reads it as absent |
| DesignSettings.BarColorDarker | src/components/visualizations/design-settings.ts:68-70 | the same 10/9 clamp as the other design file |
| DesignSettings.BarColorDarkest | src/components/visualizations/design-settings.ts:71-73 | the same 10/9 clamp as the other design file |
| DesignSettings.DarkShadesAgree | src/components/visualizations/design-settings.ts:68-73 | both design files give the same darker and darkest shades for every count |
| DesignSettings.ConsistentColor | src/components/visualizations/design-settings.ts:75-82 | with consistency on both scales are undefined; with it off both scales take A's values as domain, A's range the first \|a\| palette colours and B's the \|b\| colours after them |
| DesignSettings.InconsistentColorsDisjoint | src/components/visualizations/design-settings.ts:77-80 | while the palette lasts, the two ranges built without consistency share no colour |
| DesignSettings.ConstantColor | src/components/visualizations/design-settings.ts:93-98 | the same index normalisation, but indices 21 to 30 reach the darker shades and only past 30 is the range empty |
| DesignSettings.ConstantColorsDiverge | src/components/visualizations/design-settings.ts:93-98 | index 21 gives an empty range in one design file and the first darker shade in the other |

## Where the code and the documented behaviour part ways

The model follows the code in each of these cases:

- The `isBarChart` in `index.ts` tests for an *ordinal* x axis and a quantitative y axis. The domain and chart-data managers import a function of the same name, `isBarChart`, from `src/models/chart-types` (chart-data-manager.ts:3, domain-manager.ts:7), which is not part of this model. Those call sites read the specification's chart kind tag; the `index.ts` predicate is modelled on its own (`IsBarChart`), and `IndexBarChartHasNoPositionDomains` states what the domain code makes of a specification it accepts.
- Nested cells are identical copies of B's axis record; they are not filtered per partition value. The pivot for an aggregated B runs over **A's** rows (domain-manager.ts:118).
- In a stacked bar the category axis is `x` only when A's x is nominal, and the value axis is `x` only when A's x is quantitative. An ordinal x therefore makes both `y` (domain-manager.ts:80-81).
- `getNominalColor` reads a second count of 0 as absent, while `getBarColor` yields an empty range for it.
- For an index above 20, `getConstantColor` in `default-design-manager.ts` gives an empty range. The one in `design-settings.ts` gives the darker shade number `index - 20` for indices 21 to 30, and an empty range only above 30.
- `getConsistentColor` in `design-settings.ts` gives B's scale A's values as its domain.
- Under nesting with consistency on the partition channel, A's partition domain is A's list followed by B's (domain-manager.ts:55-60), duplicates included, and the cell count is read from it afterwards (domain-manager.ts:126, 155). B then gets `|A.x| + |B.x|` cells rather than one per distinct value; `NestingCellsPerPartitionValue` therefore assumes the consistency flags are off.
- An unguarded `find` or index lookup in the difference step is modelled as a fault (`NoMatch`). "Every A key has a B match" is then the exact condition for success, not a precondition.

## Left out

- Drawing: the SVG and d3 selection code. This covers `renderAxes`, the bar chart and legend renderers, `comp-charts.ts` with its animation timer, the chart styles and the Redux actions.
- d3 scale objects: only the domain and range lists handed to a scale are modelled. `d3.extent`, `nice` and colour interpolation are not, so a linear scale keeps its raw data list.
- Floating point: numbers are Dafny `real`, so IEEE rounding of `mean`, `sum` and `-` is not modelled.
- Numeric strings: these are not coerced by `-`. A string cell reads as no number and subtracting it gives NaN.
- Reduce, Numbers: d3's `sum`, `mean` and `median` coerce their values with `+`, so a numeric string such as "5" counts as 5; d3's `min` and `max` compare non-numbers too, so a group of strings has a string minimum and maximum. The model reduces over numeric cells only: string cells count as absent in every reducer, and a group without numeric cells has no minimum, maximum, mean or median.
- ReduceSumIsColumnTotal: the total is over numeric cells only; numeric strings that d3's `sum` would add are not counted.
- ReduceMinMax: states the least and greatest numeric cell; for a group of strings, d3's lexicographic minimum and maximum are not modelled.
- ReduceMedian: states the median against the numeric minimum and maximum; a group whose only cells are strings has a d3 `min` but no median, which the model does not reproduce.
- `d3.nest` stringifies its keys; the model compares keys as cells. The number 1 and the string "1" therefore form two groups here and one group in d3.
- Helpers in modules not part of this model are given definitions that have the behaviour their call sites rely on:
  - `uniqueValues` is `Distinct`.
  - The data-handler `getAggValues` is `AggRows`.
  - `getDomainSumByKeys` is `SumByKeys`.
  - `getFieldsByType` is `FieldsByType`, in x, y, colour order.
  - `getPivotData` stays an unconstrained parameter.
- Chart-type predicates of the chart-types module become a closed kind tag on each specification. `isChartDataAggregated` and `isBothAggregatedScatterplot` are derived from that tag and x's aggregate (`Specs.IsChartDataAggregated`, `ChartDataManager.IsBothAggregatedScatterplot`): bar charts and heatmaps are aggregated, a scatterplot is when x names an aggregate, which is the test `getChartData` applies at chart-data-manager.ts:37. The comparison-level tests (explicit encoding, stacked bar, chart-unit scatterplots, nesting) become boolean flags on the comparison specification. Their derivation from the layout is not modelled.
- GetChartData: an explicit encoding without a B specification is modelled as "no difference step". The source hands the undefined B to chart-type predicates that are not part of this model.
- `console.log` diagnostics, and the `isChartDataAggregated(A)` warning in the nesting branch.
- `getColor` and `getBarSize` of `design-settings.ts`, and `getBarSize` of `default-design-manager.ts`: these are not among the helpers modelled.
- Reduce: `count` is a natural number stored as a real cell. Counts are not bounded by JavaScript's safe-integer range.
