# vizb data pipeline in Dafny

vizb runs Go benchmarks and turns their output into interactive HTML charts.
This project models the part of vizb that handles data, and proves properties
of that model. The model covers three stages and some small state machines.

**The Go command-line side:**
- the progress counter fed by every line of `go test` output;
- the list of temporary files;
- flag validation with normalisers, valid sets and defaults;
- the unit formatters and statistic labels;
- the two benchmark parsers:
  - the text-format parser, which yields name, workload and subject;
  - the chart-data parser, which yields name and axes, classifies each value
    by its unit and adds an "Iterations" statistic when iteration counts
    differ;
- the user grouping pattern (`name_subject/workload`), with validation,
  shorthand expansion, name splitting and key assignment;
- the colour cursor of the Go colour list.

**The web UI that renders the report:**
- grouping the records of the active benchmark by name, and selecting a
  benchmark and a group;
- the chart-data builder, which pivots records into one chart per statistic
  signature, with series aligned to the y-axis domain and gaps filled
  with 0;
- the sort comparators and the stable sort the option builders apply;
- the bar, line and pie option builders: series construction, the
  transposition for two categories, the per-x and per-y pie totals, and the
  grid, legend and tooltip rules;
- the colour assigner;
- the settings store;
- the URL router:
  - the guards that apply query parameters to the page state;
  - the serialiser that writes the state back into the query string.

**How the source's state is modelled.**
- State the source updates in place is a Dafny `class` whose methods carry
  `modifies` clauses and state the whole new state. This covers the colour
  cursors, the settings store, the selection, the progress manager, the
  temp-file list, the validated flags and the parser globals `CPUCount` and
  `HasMemStats`.
- Each such method is proved against a pure specification function. The
  properties the source promises are lemmas about those functions.
- Loops that build lists and maps are methods proved against back-recursive
  functions.
- Pure code (formatters, comparators, option builders, pattern parsing) is
  functions and lemmas.

**Oracles.** Calls into libraries the model cannot see are passed in as
parameters:
- the benchfmt reader hands over a stream of `Option<BenchLine>`, where
  `None` is a record that is not a benchmark line;
- regular-expression matching for the filter and the group regex;
- JSON decoding of a progress line;
- the per-component encoding and decoding of URL query components.

Numbers are `real` or `int`; float64 rounding is not modelled.

## Model

| member | source | states |
|---|---|---|
| StatType.CreateStatType | shared/utils/stat_type.go:6-20 | The label is "name (unit/per)", "name (unit)", "name/per" or the bare name, depending on which of unit and per are non-empty. |
| StatType.CreateStatTypeSeparatesUnits | shared/utils/stat_type.go:7-13 | For the same name and per, two non-empty units give the same label exactly when they are equal. |
| Formatter.FormatTime | shared/utils/formatter.go:6-23 | 0 gives 0. The result times the unit's size gives back the nanoseconds. The size is 1e9, 1e6 or 1e3 for s, ms or us, and 1 for any other unit. |
| Formatter.FormatMem | shared/utils/formatter.go:29-48 | 0 gives 0. The result times the unit's size gives back the bytes. The size is 1/8 for "b" (bits), 1024, 1024² or 1024³ for kb, mb or gb, and 1 for any other unit. |
| Formatter.FormatAllocs | shared/utils/formatter.go:54-73 | 0 gives 0. The result times the unit's size gives back the count. The size is 1e3, 1e6, 1e9 or 1e12 for K, M, B or T, and 1 for any other unit. |
| Formatter.FormattersMonotone | shared/utils/formatter.go:6-73 | For a fixed unit, each formatter preserves the order of its inputs, and a result is negative exactly when its input is. |
| Formatter.UnitsAreCaseSensitive | shared/utils/formatter.go:29-48 | "KB", "MB", "GB", "MS" and "k" fall through to the identity, because unit matching is case-sensitive. |
| FormatValue.Format | pkg/chart/templates/ui/src/composables/charts/baseChartOptions.ts:12-26 | 0 shows as "0". For ns and b, the scaled amount times its suffix's size is the value, with the suffix from ms/μs/ns or GB/MB/KB/B. Any other unit shows the plain number. |
| FormatValue.FormatChoosesLargestUnit | pkg/chart/templates/ui/src/composables/charts/baseChartOptions.ts:14-24 | For a positive value, the chosen unit is the largest one the value reaches. The amount is at least 1 unless the suffix is the base unit, and below 1000 (time) or 1024 (bytes) unless it is the largest unit. Only base units have 0 decimals. |
| Colors.Advance | pkg/template/ui/src/lib/utils.ts:39-43 | The corrected cursor step stays below the palette length and steps by one before the last colour. |
| Colors.AdvanceAsWritten | pkg/template/ui/src/lib/utils.ts:39-43 | As written, the cursor resets to 0 only once it equals the palette length, and otherwise steps by one. |
| Colors.NextColorFor | pkg/template/ui/src/lib/utils.ts:30-46 | A known key gets its recorded colour and nothing changes. A new key gets the colour at the cursor and is recorded. Earlier keys keep their colours, and the result is always a palette index. |
| Colors.ColorIsStable | pkg/template/ui/src/lib/utils.ts:31-33 | Asking again for a key just coloured returns the same colour and changes nothing. |
| Colors.FreshKeysCycle | pkg/template/ui/src/lib/utils.ts:35-43 | Distinct new keys get colours cursor, cursor + 1, … modulo the palette length, and the cursor moves on by their number. Earlier keys keep theirs and no other key is added. |
| Colors.ResetGivesDistinctColors | pkg/template/ui/src/lib/utils.ts:48-51 | After a reset, up to palette-length distinct keys are all recorded, with pairwise distinct colours. |
| Colors.NextColorForAsWritten | pkg/template/ui/src/lib/utils.ts:30-46 | A known key gets its recorded colour and nothing changes. A new key gets the colour at cursor modulo the length and is recorded with it, and the cursor takes the as-written step, staying at most the palette length. Every key already recorded keeps its colour. |
| Colors.AsWrittenColorIsStable | pkg/template/ui/src/lib/utils.ts:30-37 | As written, asking again for a key returns the colour it got the first time and changes nothing. |
| Colors.AsWrittenCursorCounts | pkg/template/ui/src/lib/utils.ts:39-43 | As written, after n ≤ palette length distinct keys from a reset, the cursor is n, so it reaches the palette length. |
| Colors.AsWrittenDomain | pkg/template/ui/src/lib/utils.ts:37 | As written, the map holds only keys that were asked for. |
| Colors.AsWrittenRepeatsFirstColor | pkg/template/ui/src/lib/utils.ts:35-43 | As written, with the 10-colour palette, the 11th and 12th distinct keys after a reset both get colour 0. |
| Colors.CorrectedEleventhAndTwelfthDiffer | pkg/template/ui/src/lib/utils.ts:35-43 | With the corrected step, the 11th and 12th distinct keys get colours 0 and 1. |
| Colors.ColorAssigner.constructor | pkg/template/ui/src/lib/utils.ts:27-28 | The module state starts with an empty map and the cursor at 0. |
| Colors.ColorAssigner.GetNextColorFor | pkg/template/ui/src/lib/utils.ts:30-46 | The new state and the result are those of `NextColorFor` on the old state. |
| Colors.ColorAssigner.ResetColor | pkg/template/ui/src/lib/utils.ts:48-51 | The map is emptied and the cursor set to 0. |
| ColorCycle.Step | shared/color_list.go:73-77 | The corrected cursor step stays below the list length. |
| ColorCycle.CallsCycle | shared/color_list.go:65-80 | `colorMap` is never written, so call n from a fresh state returns colour n mod length whatever the keys, and leaves the cursor at n mod length. |
| ColorCycle.ConsecutiveCallsDiffer | shared/color_list.go:70-77 | With the corrected step, calls fewer than the list length apart return different colours. |
| ColorCycle.AsWrittenCursorCounts | shared/color_list.go:73-77 | As written, after n ≤ length calls the cursor is n. |
| ColorCycle.AsWrittenRepeatsFirstColor | shared/color_list.go:70-77 | As written, calls number length and length + 1 both return colour 0. The corrected step returns 0 and 1. |
| ColorCycle.ColorCycler.constructor | shared/color_list.go:60-63 | The package state starts with the cursor at 0. |
| ColorCycle.ColorCycler.GetNextColorFor | shared/color_list.go:65-80 | The key is ignored. The result is the colour at cursor mod length, and the cursor takes the corrected step. |
| Common.SortByTotal | pkg/template/ui/src/composables/charts/shared/common.ts:3-11 | "asc" compares `a.total - b.total`. Any other order compares `b.total - a.total`. |
| Common.SortByValue | pkg/template/ui/src/composables/charts/shared/common.ts:13-21 | The same rule on `.value`. |
| Common.ComparatorsAntisymmetric | pkg/template/ui/src/composables/charts/shared/common.ts:3-21 | cmp(a, b) = −cmp(b, a) for both comparators. |
| Common.CompareByPreorder | pkg/template/ui/src/composables/charts/shared/common.ts:3-21 | An element compares equal to itself, any two keys are comparable, and the comparator is transitive, so it is a consistent order for the sort. |
| Sorting.SortBy | pkg/template/ui/src/composables/charts/useBarChartOptions.ts:35 | The sorted copy has the length of the input. |
| Sorting.SortByPermutation | pkg/template/ui/src/composables/charts/usePieChartOptions.ts:23 | Sorting is a permutation: the multiset of elements is unchanged. |
| Sorting.SortBySorted | pkg/template/ui/src/composables/charts/useLineChartOptions.ts:34 | The result is ordered by the comparator. |
| Sorting.SortByStable | pkg/template/ui/src/composables/charts/usePieChartOptions.ts:86 | Elements with equal keys keep their relative order, as the ECMAScript sort guarantees. |
| Sorting.SortByIdempotent | pkg/template/ui/src/composables/charts/useBarChartOptions.ts:35 | An already ordered sequence is returned unchanged, so sorting twice equals sorting once. |
| Sorting.SortByKeepsSum | pkg/template/ui/src/composables/charts/usePieChartOptions.ts:23 | Sorting does not change the sum of any quantity over the elements. |
| ChartConfig.GetChartStyling | pkg/template/ui/src/composables/charts/shared/chartConfig.ts:10-16 | Dark mode gives text #e5e7eb, axis #4b5563 and opacity 0.2. Light mode gives #374151, #d1d5db and 0.8. |
| ChartConfig.CreateAxisConfig | pkg/template/ui/src/composables/charts/shared/chartConfig.ts:21-54 | Category labels are rotated by 30° exactly when there are more than 15 categories. The axis name and styling are passed through. |
| ChartConfig.CreateTooltipConfig | pkg/template/ui/src/composables/charts/shared/chartConfig.ts:59-85 | The trigger is "axis" exactly when the chart has both axes, and "item" otherwise. |
| ChartConfig.CreateLegendConfig | pkg/template/ui/src/composables/charts/shared/chartConfig.ts:90-109 | The legend is shown exactly when there are several series. When shown, it lists the given names in order in the text colour. |
| ChartConfig.GridTop | pkg/template/ui/src/composables/charts/shared/chartConfig.ts:114-127 | Grid top is at most 35, at least 15 for one series or more, 15 for up to 15 series and 35 from 151 on. |
| ChartConfig.GridTopMonotone | pkg/template/ui/src/composables/charts/shared/chartConfig.ts:114-118 | Grid top never decreases as the series count grows. |
| ChartConfig.GridTopOfNoSeries | pkg/template/ui/src/composables/charts/shared/chartConfig.ts:114-118 | With no series, JavaScript's floor of −1/15 gives −1, so grid top is 13, below the usual lower bound. |
| ChartDataBuilder.ChartTitle | pkg/template/ui/src/composables/useChartData.ts:9-23 | The title is the statistic-type label of the type, with the unit and per dropped when absent or empty. |
| ChartDataBuilder.Signatures | pkg/template/ui/src/composables/useChartData.ts:27-29 | One signature per statistic, in order: the rendered string of type, unit and per joined by "-", an absent unit or per written "undefined". Statistics are told apart by this string, not by the triple, so two triples that render alike share a signature. |
| ChartDataBuilder.MatchingValue | pkg/template/ui/src/composables/useChartData.ts:57-62 | A record's value for a signature is that of its first statistic with that signature, or none. |
| ChartDataBuilder.YLabels | pkg/template/ui/src/composables/useChartData.ts:67 | The y labels of the observations, in order. The chart's y domain is these labels with duplicates removed. |
| ChartDataBuilder.XLabels | pkg/template/ui/src/composables/useChartData.ts:68 | The x labels of the observations, in order. The chart's x domain is these labels with duplicates removed. |
| ChartDataBuilder.Row | pkg/template/ui/src/composables/useChartData.ts:83 | A series row has one entry per y label. Each entry is the pivot cell for that pair, or 0. |
| ChartDataBuilder.SeriesOf | pkg/template/ui/src/composables/useChartData.ts:81-85 | One series per x label, in domain order, each with a row aligned to the y domain. |
| ChartDataBuilder.CollectIsCollected | pkg/template/ui/src/composables/useChartData.ts:37-46 | The reducer's accumulator after any statistics lists their distinct signatures in first-seen order, is keyed by exactly those, and holds the first statistic of each as its template. |
| ChartDataBuilder.AddRecordStats | pkg/template/ui/src/composables/useChartData.ts:38-43 | The loop over a record's statistics leaves the accumulator of everything seen so far followed by that record. |
| ChartDataBuilder.CollectUniqueStats | pkg/template/ui/src/composables/useChartData.ts:37-46 | The loop yields the distinct signatures of all records in first-seen order. The template of each is the first statistic with that signature. |
| ChartDataBuilder.AddLabel | pkg/template/ui/src/composables/useChartData.ts:67-68 | After a set insert the label is present. |
| ChartDataBuilder.PivotSignature | pkg/template/ui/src/composables/useChartData.ts:53-75 | The pivot loop yields the x and y domains, deduplicated in first-seen order, and a map whose every cell is the specification's cell. |
| ChartDataBuilder.BuildSeries | pkg/template/ui/src/composables/useChartData.ts:81-85 | One series per x label, named by it, each with one value per y label. |
| ChartDataBuilder.BuildSeriesAgrees | pkg/template/ui/src/composables/useChartData.ts:81-85 | When the map holds the specification's cells, the built series equal `SeriesOf`. |
| ChartDataBuilder.UseChartData | pkg/template/ui/src/composables/useChartData.ts:32-94 | One chart per distinct signature, in first-seen order, each with the title, domains and series of the specification. |
| ChartDataBuilder.CellIsLastWrite | pkg/template/ui/src/composables/useChartData.ts:70-74 | A pivot cell holds the value of the last record with that (y, x) pair, and is empty exactly when no record has that pair. |
| ChartDataBuilder.ObservationsAppend | pkg/template/ui/src/composables/useChartData.ts:53-65 | The observations of two batches of records are those of the first followed by those of the second. |
| ChartDataBuilder.RecordWithoutValueIsSkipped | pkg/template/ui/src/composables/useChartData.ts:64-65 | A record without a statistic of the signature contributes nothing to that chart. |
| ChartDataBuilder.ChartShape | pkg/template/ui/src/composables/useChartData.ts:77-85 | The y domain has no duplicates. There is one series per distinct x label, with distinct x labels, and every series is as long as the y domain. |
| ChartDataBuilder.ObservedValueIsCharted | pkg/template/ui/src/composables/useChartData.ts:74-83 | The last observation of a (y, x) pair appears in the chart, in the series of its x label at the position of its y label. |
| ChartDataBuilder.UnobservedCellIsZero | pkg/template/ui/src/composables/useChartData.ts:83 | A (y, x) pair no record supplies is 0. |
| ChartDataBuilder.ChartsPerSignature | pkg/template/ui/src/composables/useChartData.ts:48-94 | There is one chart per distinct signature, in order of first appearance. Each is titled from the first statistic with its signature. |
| ChartDataBuilder.EmptyInputGivesNoCharts | pkg/template/ui/src/composables/useChartData.ts:34 | No records give no charts. |
| Cartesian.XNames | pkg/template/ui/src/composables/charts/useBarChartOptions.ts:40 | Entry k of the x-axis data is series k's x label. |
| Cartesian.Sorted | pkg/template/ui/src/composables/charts/useBarChartOptions.ts:18-43 | The series keep their number, and the x-axis data is their x labels. Without sorting, the series come back unchanged. |
| Cartesian.SortedIsOrderedPermutation | pkg/template/ui/src/composables/charts/useBarChartOptions.ts:29-40 | With sorting, the series are a permutation of the input, ordered by total and stable on ties, and the x-axis data follows them. |
| Cartesian.FirstValues | pkg/template/ui/src/composables/charts/useBarChartOptions.ts:65-66 | A single-category point is the series' first value, or undefined when there is none. |
| Cartesian.Column | pkg/template/ui/src/composables/charts/useBarChartOptions.ts:90-91 | Point k is `values[yIndex]` of series k, or 0 where the series is too short. |
| Cartesian.Transpose | pkg/template/ui/src/composables/charts/useBarChartOptions.ts:86-104 | One transposed series per y label, each with one point per x series. |
| Cartesian.SeriesNames | pkg/template/ui/src/composables/charts/useBarChartOptions.ts:126 | The legend names are the transposed series' names, in order. |
| Cartesian.TransposeKeepsEveryValue | pkg/template/ui/src/composables/charts/useBarChartOptions.ts:87-91 | Point k of transposed series j is `values[j]` of x series k: no value is lost or moved. |
| BarChartOptions.Groups | pkg/template/ui/src/composables/charts/useBarChartOptions.ts:86-117 | One group per y label. The groups are the transposed series, re-sorted by their single value only when sorting is on and there is exactly one x entry. |
| BarChartOptions.SingleCategoryShape | pkg/template/ui/src/composables/charts/useBarChartOptions.ts:52-82 | Without a y axis there is one bar series named by the title. It has one point per x entry (the entry's first value), the categories are the x labels, the tooltip is item-triggered, the legend is hidden and grid top is 15. |
| BarChartOptions.DualCategoryShape | pkg/template/ui/src/composables/charts/useBarChartOptions.ts:119-133 | With a y axis the series are the transposed groups. The legend is shown exactly when there is more than one group and lists them. The tooltip is axis-triggered exactly when there is an x axis, and grid top is sized by the group count. |
| BarChartOptions.DualCategoryKeepsEveryValue | pkg/template/ui/src/composables/charts/useBarChartOptions.ts:86-104 | Every (y, x) value of the sorted data appears in the bar for its group and category. |
| BarChartOptions.DualCategoryGroupOrder | pkg/template/ui/src/composables/charts/useBarChartOptions.ts:106-117 | Groups keep the y-domain order unless sorting is on with a single x entry, in which case they are sorted by value. |
| LineChartOptions.SingleCategoryShape | pkg/template/ui/src/composables/charts/useLineChartOptions.ts:52-73 | Without a y axis there is one line of first values, with circle symbols of size 7. The tooltip is item-triggered, the legend is hidden and grid top is 15. |
| LineChartOptions.DualCategoryShape | pkg/template/ui/src/composables/charts/useLineChartOptions.ts:76-100 | With a y axis there is one line per y label, with `values[yIndex]` or 0 for each x entry. The tooltip is axis-triggered, the legend lists the y labels and grid top is sized by their count. |
| LineChartOptions.SameSeriesAsBars | pkg/template/ui/src/composables/charts/useLineChartOptions.ts:76-87 | Unless the bars re-sort a single x entry, the lines are exactly the bar series drawn as lines. |
| PieChartOptions.PieTotal | pkg/template/ui/src/composables/charts/usePieChartOptions.ts:14-20 | With a y axis, the total is the sum of the values. Otherwise it is `values[0]`, or 0. |
| PieChartOptions.WithTotals | pkg/template/ui/src/composables/charts/usePieChartOptions.ts:14-20 | Each series is paired with its pie total, in order. |
| PieChartOptions.SortedTotals | pkg/template/ui/src/composables/charts/usePieChartOptions.ts:12-27 | The totalled series are always a permutation of the input. They are ordered by total when sorting is on, and keep the input order when it is off. |
| PieChartOptions.XSlices | pkg/template/ui/src/composables/charts/usePieChartOptions.ts:42-46 | One slice per x series, named by its label and valued by its total. |
| PieChartOptions.FillYTotals | pkg/template/ui/src/composables/charts/usePieChartOptions.ts:69-77 | The forEach loop yields the specification's totals map. |
| PieChartOptions.YTotalsAreColumnSums | pkg/template/ui/src/composables/charts/usePieChartOptions.ts:69-77 | Every y label has a total and the map has no other key. For the last occurrence of a label, the total is the sum over series of `values[j]`, with 0 where a value is missing. |
| PieChartOptions.YSlices | pkg/template/ui/src/composables/charts/usePieChartOptions.ts:79-83 | One slice per y label, valued by its column total. |
| PieChartOptions.OrderSlices | pkg/template/ui/src/composables/charts/usePieChartOptions.ts:85-87 | Slices are a permutation with the same sum. They are ordered by value when sorting is on, and unchanged when it is off. |
| PieChartOptions.SliceOrderIsSortByValue | pkg/template/ui/src/composables/charts/usePieChartOptions.ts:85-87 | The order used for slices is the `sortByValue` comparator. |
| PieChartOptions.BuildOptions | pkg/template/ui/src/composables/charts/usePieChartOptions.ts:29-148 | The method builds the options of the specification. |
| PieChartOptions.Layouts | pkg/template/ui/src/composables/charts/usePieChartOptions.ts:48-147 | The legend is hidden. No y axis gives one x pie. A y axis without an x axis gives one y pie with a slice per y label. Both axes give two pies centred at 25% and 75% with radius 30–60%. |
| PieChartOptions.XSlicesAreTotals | pkg/template/ui/src/composables/charts/usePieChartOptions.ts:14-46 | Each x slice is named by its series and worth its pie total. Without sorting the input order is kept, and with sorting earlier slices come first in the order. |
| PieChartOptions.YSlicesAreColumnSums | pkg/template/ui/src/composables/charts/usePieChartOptions.ts:69-83 | Each y slice is worth its column sum, whatever the sort. |
| PieChartOptions.YSlicesSum | pkg/template/ui/src/composables/charts/usePieChartOptions.ts:79-83 | With distinct y labels, the y slices add up to the column totals over the y domain. |
| PieChartOptions.XSlicesSum | pkg/template/ui/src/composables/charts/usePieChartOptions.ts:42-46 | When each total is its series' sum, the x slices add up to the sum of all values. |
| PieChartOptions.PiesHaveEqualTotals | pkg/template/ui/src/composables/charts/usePieChartOptions.ts:124-145 | When every series is as long as the y domain, the two side-by-side pies have the same total. |
| SettingsStore.ChartsFor | pkg/template/ui/src/composables/useSettingsStore.ts:73-75 | The chart list is never empty and holds only allowed types. |
| SettingsStore.ChartsForKeepsAllowedOrder | pkg/template/ui/src/composables/useSettingsStore.ts:74-75 | The list is the allowed entries in order, or the defaults when none survive. |
| SettingsStore.ChartTypeAt | pkg/template/ui/src/composables/useSettingsStore.ts:23 | The active chart type is the entry at the index, or "bar" when the index is out of range. |
| SettingsStore.Store.constructor | pkg/template/ui/src/composables/useSettingsStore.ts:14-21 | The store starts with sorting off in ascending order, labels hidden, the default charts, index 0, no swap indices, and uninitialised. |
| SettingsStore.Store.ChartType | pkg/template/ui/src/composables/useSettingsStore.ts:23 | With a valid store, the type at the active index, which is an allowed type. |
| SettingsStore.Store.SetSort | pkg/template/ui/src/composables/useSettingsStore.ts:65-67 | Only the sort directive changes. |
| SettingsStore.Store.SetShowLabels | pkg/template/ui/src/composables/useSettingsStore.ts:69-71 | Only the label flag changes. |
| SettingsStore.Store.SetCharts | pkg/template/ui/src/composables/useSettingsStore.ts:73-81 | The charts become `ChartsFor(list)`. An active index that falls out of range is reset to 0, and the rest is unchanged. |
| SettingsStore.Store.SetActiveChartIndex | pkg/template/ui/src/composables/useSettingsStore.ts:83-87 | An index in range is taken. Any other changes nothing. |
| SettingsStore.Store.SetChartType | pkg/template/ui/src/composables/useSettingsStore.ts:89-94 | The index moves to the type's first position when the type is listed. Otherwise nothing changes. |
| SettingsStore.Store.InitializeFromBenchmark | pkg/template/ui/src/composables/useSettingsStore.ts:96-105 | The benchmark's settings apply on the first call or when forced, and the store becomes initialised. Otherwise nothing changes. |
| SettingsStore.Store.SetSelectedSwapIndex | pkg/template/ui/src/composables/useSettingsStore.ts:107-109 | Only the swap index changes. |
| SettingsStore.Store.GetSelectedSwapIndex | pkg/template/ui/src/composables/useSettingsStore.ts:111-113 | The stored swap index for the benchmark, or none. |
| Benchmarks.Names | pkg/template/ui/src/composables/useBenchmarkData.ts:66 | The record names, in order. |
| Benchmarks.GroupMapIsFilter | pkg/template/ui/src/composables/useBenchmarkData.ts:63-70 | The map's keys are the record names. Under each name are exactly that name's records, in input order. |
| Benchmarks.GroupByName | pkg/template/ui/src/composables/useBenchmarkData.ts:60-73 | The grouping loop returns the distinct names in first-seen order and the map of the specification. |
| Benchmarks.GroupingPartitions | pkg/template/ui/src/composables/useBenchmarkData.ts:63-72 | Grouping loses and mixes nothing. Every record is in its name's group, in input order, and groups follow first appearance. |
| Benchmarks.GroupView | pkg/template/ui/src/composables/useBenchmarkData.ts:77-86 | A group carries its name and records, plus the benchmark's description, CPU and settings, or their defaults. |
| Benchmarks.GroupsOf | pkg/template/ui/src/composables/useBenchmarkData.ts:76-87 | One group per distinct record name, in first-seen order. No active benchmark gives no groups. |
| Benchmarks.AtOrFirst | pkg/template/ui/src/composables/useBenchmarkData.ts:53-57 | The entry at a valid index, else the first entry, else nothing. |
| Benchmarks.Selection.constructor | pkg/template/ui/src/composables/useBenchmarkData.ts:52-89 | Both ids start at 0, with the given benchmarks, store and colour assigner. |
| Benchmarks.Selection.ActiveGroup | pkg/template/ui/src/composables/useBenchmarkData.ts:90-92 | The selected group, or group 0 when the id is out of range. |
| Benchmarks.Selection.SelectBenchmark | pkg/template/ui/src/composables/useBenchmarkData.ts:96-112 | An out-of-range id changes nothing. A valid id resets the colours, sets the id, forces the benchmark's settings into the store if it has any, and resets the group to 0. |
| Benchmarks.Selection.SelectGroup | pkg/template/ui/src/composables/useBenchmarkData.ts:114-118 | Only an id in [0, group count) is taken. |
| UrlRouter.IndexParam | pkg/template/ui/src/composables/useUrlRouter.ts:44-54 | An absent value does nothing. An id is applied exactly when `parseInt(value, 10)` gives a number in [0, max). |
| UrlRouter.IndexRoundTrip | pkg/template/ui/src/composables/useUrlRouter.ts:44-54 | An id written with `toString` reads back through the guard as the same id. |
| UrlRouter.SortParamAsWritten | pkg/template/ui/src/composables/useUrlRouter.ts:83-85 | As written, the guard accepts asc/desc in any case but stores the value as it came. |
| UrlRouter.SortParamAsWrittenReverses | pkg/template/ui/src/composables/useUrlRouter.ts:83-85 | As written, `s=ASC` enables sorting in descending order. |
| UrlRouter.SortParam | pkg/template/ui/src/composables/useUrlRouter.ts:83-85 | The corrected guard stores the accepted order in lower case. |
| UrlRouter.SortParamFollowsDirection | pkg/template/ui/src/composables/useUrlRouter.ts:83-85 | With the corrected guard, the sort is ascending exactly when the parameter reads "asc" in any case. |
| UrlRouter.LabelsParam | pkg/template/ui/src/composables/useUrlRouter.ts:88-94 | Labels are set only for "true" or "false", in any case, to the value named. |
| UrlRouter.ChartParam | pkg/template/ui/src/composables/useUrlRouter.ts:97-99 | Only a default chart type, matched exactly, is applied. |
| UrlRouter.ApplySelection | pkg/template/ui/src/composables/useUrlRouter.ts:74-79 | The benchmark is selected when the guard passes, then the group within it. A selected benchmark with settings puts its sort, labels and charts into the store, with chart 0 active. Otherwise the settings do not change. |
| UrlRouter.ApplySettings | pkg/template/ui/src/composables/useUrlRouter.ts:81-99 | Sort, labels and chart type each change only when their own guard passes. An accepted sort order is stored as it came, in its own case. |
| UrlRouter.ApplyParams | pkg/template/ui/src/composables/useUrlRouter.ts:74-100 | The selection comes first and the settings on top of it. A parameter that passes its guard wins; the sort order is stored as it came. Each other setting keeps what the selection left: the selected benchmark's own settings (chart 0 active) when it has any, else the old value. |
| UrlRouter.Keys | pkg/template/ui/src/composables/useUrlRouter.ts:34 | The record's keys, in order. |
| UrlRouter.Kept | pkg/template/ui/src/composables/useUrlRouter.ts:35-37 | Only entries that are neither undefined nor empty are kept, in record order. |
| UrlRouter.QueryString | pkg/template/ui/src/composables/useUrlRouter.ts:39-40 | "" exactly when nothing is kept. Otherwise "?" followed by the rendered pairs. |
| UrlRouter.BuildQueryString | pkg/template/ui/src/composables/useUrlRouter.ts:32-41 | For a record with distinct keys, the loop returns `QueryString`. |
| UrlRouter.StateParams | pkg/template/ui/src/composables/useUrlRouter.ts:106-132 | The record has keys s, l, c, b and g. Each is set only away from its default. |
| UrlRouter.DefaultStateHasNoQuery | pkg/template/ui/src/composables/useUrlRouter.ts:105-134 | The query is empty exactly when sorting is off, labels are hidden, the first chart is active and both ids are 0. |
| UrlRouter.SplitOn | pkg/template/ui/src/composables/useUrlRouter.ts:19 | Splitting a query yields at least one piece, and no piece contains the separator. |
| UrlRouter.SplitJoin | pkg/template/ui/src/composables/useUrlRouter.ts:19 | Splitting undoes joining when no piece contains the separator. |
| UrlRouter.Items | pkg/template/ui/src/composables/useUrlRouter.ts:39 | Each kept pair renders as `key=value`, both sides encoded. |
| UrlRouter.RenderIsJoin | pkg/template/ui/src/composables/useUrlRouter.ts:39 | The rendered query is its items joined with "&". |
| UrlRouter.ParseQuery | pkg/template/ui/src/composables/useUrlRouter.ts:19 | The empty query has no pairs, and there is at most one pair per `&` piece: empty pieces are skipped, as `URLSearchParams` does. |
| UrlRouter.QueryRoundTrip | pkg/template/ui/src/composables/useUrlRouter.ts:32-41 | With an invertible encoding, the written query parses back to exactly the kept entries, in order. |
| UrlRouter.ItemRoundTrip | pkg/template/ui/src/composables/useUrlRouter.ts:36 | One rendered pair parses back as the pair. |
| UrlRouter.Get | pkg/template/ui/src/composables/useUrlRouter.ts:21-25 | `params.get(key)` is absent exactly when no pair has the key. Otherwise it returns a value paired with the key. |
| UrlRouter.GetKept | pkg/template/ui/src/composables/useUrlRouter.ts:35-37 | With distinct keys, a key reads back its value when it was kept, and nothing otherwise. |
| UrlRouter.ReadBack | pkg/template/ui/src/composables/useUrlRouter.ts:18-41 | Reading back a written query gives each key its written value, or nothing when it was left out. |
| UrlRouter.WrittenSettingsReadBack | pkg/template/ui/src/composables/useUrlRouter.ts:105-122 | Reloading the written URL restores the sort order when sorting is on, and the label flag. Parts at their default read back as absent. |
| UrlRouter.WrittenSelectionReadsBack | pkg/template/ui/src/composables/useUrlRouter.ts:124-132 | A positive benchmark or group id reads back through the index guard as the same id. An id of 0 reads back as absent. |
| ParsePattern.Separators | pkg/parser/parse_pattern.go:72 | The separators of the pattern: only `_` and `/`, no more of them than the pattern has characters. |
| ParsePattern.SplitParts | pkg/parser/parse_pattern.go:51 | The pieces between separators, empty pieces included: one more piece than separators, none containing a separator. |
| ParsePattern.SplitPartsRejoin | pkg/parser/parse_pattern.go:51 | The pieces, interleaved with the separators, give back the pattern. |
| ParsePattern.FirstInvalidFinds | pkg/parser/parse_pattern.go:53-57 | An error is reported exactly when some part fails the check, and it names a failing part. |
| ParsePattern.ValidatePatternAsWritten | pkg/parser/parse_pattern.go:45-59 | The empty pattern is an error. The whole behaviour is stated by `ValidatePatternAsWrittenAccepts`. |
| ParsePattern.ValidatePattern | pkg/parser/parse_pattern.go:45-59 | The empty pattern is an error. The whole behaviour, with the intended part test, is stated by `ValidatePatternAccepts`. |
| ParsePattern.ValidatePatternAsWrittenAccepts | pkg/parser/parse_pattern.go:45-59 | The check as written accepts exactly the non-empty patterns whose every piece passes its part test (starts with n, s or w, contains name or subject, or ends with workload). |
| ParsePattern.ValidatePatternAccepts | pkg/parser/parse_pattern.go:45-59 | The intended check accepts exactly the non-empty patterns whose every piece is name, subject, workload, n, s or w. A rejected non-empty pattern reports a piece that is not. |
| ParsePattern.AsWrittenAcceptsNonKeys | pkg/parser/parse_pattern.go:50 | As written, "sfoo" is accepted, although it is no key. |
| ParsePattern.AsWrittenAcceptsContainedKeys | pkg/parser/parse_pattern.go:50 | As written, "rename" is accepted too, because it contains "name". |
| ParsePattern.ValidPatternIsAcceptedAsWritten | pkg/parser/parse_pattern.go:50-57 | Every pattern the corrected check accepts is accepted as written. |
| ParsePattern.ExpandShorthand | pkg/parser/parse_pattern.go:122-132 | n, s and w become name, subject and workload. Anything else is unchanged. |
| ParsePattern.ExpandShorthandKeys | pkg/parser/parse_pattern.go:122-132 | Expanding is idempotent. A valid part expands to one of the three keys, and to "name" exactly for n and name. |
| ParsePattern.PatternParts | pkg/parser/parse_pattern.go:62-68 | One key per pattern piece, each expanded. |
| ParsePattern.ParsePatternParts | pkg/parser/parse_pattern.go:62-68 | The in-place expanding loop returns `PatternParts`. |
| ParsePattern.SplitFirst | pkg/parser/parse_pattern.go:81 | `SplitN(part, sep, 2)` returns the text before and after the first separator, or the part whole, and the pieces rejoin to the part. |
| ParsePattern.SplitEach | pkg/parser/parse_pattern.go:79-83 | Every current piece is split at most once: at least as many pieces and at most twice as many. |
| ParsePattern.SplitName | pkg/parser/parse_pattern.go:71-95 | With no separator in the pattern, the name is returned whole. Otherwise no piece is empty. |
| ParsePattern.SplitEachLoop | pkg/parser/parse_pattern.go:79-84 | The inner loop returns `SplitEach`. |
| ParsePattern.SplitNameByPattern | pkg/parser/parse_pattern.go:71-95 | The nested loops return `SplitName`. |
| ParsePattern.SplitNameRecoversParts | pkg/parser/parse_pattern.go:71-95 | A name built from non-empty pieces joined with the pattern's separators splits back into those pieces. Every piece but the last must be free of separators. |
| ParsePattern.ResultMap | pkg/parser/parse_pattern.go:98-114 | The map has exactly the keys name, workload and subject plus the pattern's keys. |
| ParsePattern.MapPartsToResult | pkg/parser/parse_pattern.go:98-114 | The map-filling loop returns `ResultMap`. |
| ParsePattern.ResultMapByPosition | pkg/parser/parse_pattern.go:105-111 | With distinct keys, each key holds the name piece at its position, or "" once the name has run out. |
| ParsePattern.ResultMapUnnamed | pkg/parser/parse_pattern.go:99-103 | A key the pattern does not name keeps "". |
| ParsePattern.ParseBenchmarkNameToGroups | pkg/parser/parse_pattern.go:14-42 | The result is an error exactly when the check as written rejects the pattern, and the error is that check's message. |
| ParsePattern.EmptyPatternIsError | pkg/parser/parse_pattern.go:46-48 | The empty pattern is an error. |
| ParsePattern.AcceptedGroupKeys | pkg/parser/parse_pattern.go:23-37 | Every key of a parsed map is name, workload, subject or a key of the pattern. |
| ParsePattern.AcceptedPatternKey | pkg/parser/parse_pattern.go:45-68 | A key of a pattern accepted as written is name, workload, subject or a piece that passed the part test. |
| ParsePattern.AsWrittenParseKeepsNonKeys | pkg/parser/parse_pattern.go:14-42 | A one-piece pattern that passes the part test without being a key, such as "sfoo", parses: the piece becomes a key holding the whole name, and the subject stays "". |
| ParsePattern.ParsedGroupsShape | pkg/parser/parse_pattern.go:23-37 | For a pattern of keys and shorthands, the parse succeeds. With enough pieces, the result has exactly the three keys, and unnamed keys are "". With a short name and "name" in the pattern, no empty group is returned. |
| ParsePattern.ParseRecoversGroups | pkg/parser/parse_pattern.go:14-42 | End to end: for a pattern of keys and shorthands with distinct keys, a name built from its pieces parses into those pieces under their keys. |
| BenchRecords.CpuIsLastDashPart | pkg/parser/bench_result.go:28-36 | The CPU suffix is the last "-" part without its dash. |
| BenchRecords.NoDashPartNoCpu | pkg/parser/bench_result.go:28-36 | Without a "-" part, the CPU suffix is "". |
| BenchRecords.StoredCpu | pkg/parser/bench_result.go:16-22 | A non-zero count is kept. From 0, the count becomes the suffix's value if it parses, and stays 0 otherwise. |
| BenchRecords.CpuCountSticks | pkg/parser/bench_result.go:17 | Once the count is non-zero, no later suffix changes it. |
| BenchRecords.CpuCountIsFirstParsed | pkg/parser/bench_result.go:16-22 | From 0, the count is the value of the first suffix that parses to a non-zero number. |
| BenchRecords.CpuAfterUnparsed | pkg/parser/bench_result.go:16-22 | Suffixes that all fail to parse, or parse to 0, leave the count at 0. |
| BenchRecords.Globals.constructor | pkg/parser/bench_result.go:17 | `CPUCount` starts at 0 and `HasMemStats` is false. |
| BenchRecords.Globals.StoreCpuCount | pkg/parser/bench_result.go:16-22 | The count becomes `StoredCpu` of the old count. The memory flag is unchanged. |
| BenchRecords.Globals.MarkMemStats | pkg/parser/bench_result.go:87 | The memory flag is set and the count is unchanged. |
| BenchResult.KeptParts | pkg/parser/bench_result.go:28-36 | The kept parts are the non-"-" parts without their leading "/", never more than the parts. |
| BenchResult.ParseBenchmarkName | pkg/parser/bench_result.go:24-39 | The loop returns the base, `KeptParts` and the CPU suffix. |
| BenchResult.Slashed | pkg/parser/bench_result.go:25 | benchfmt's parts for a path: "/" before each segment. |
| BenchResult.KeptPartsOfPath | pkg/parser/bench_result.go:24-39 | Name parsing gives the path segments back, and the CPU suffix is the one after the last dash. |
| BenchResult.GroupsFromName | pkg/parser/bench_result.go:41-51 | No part: the subject is the base. One part: name = base and subject = the part. More: workload and subject are the last two parts. |
| BenchResult.GroupsOfPath | pkg/parser/bench_result.go:41-51 | For "base/seg…-cpu", the subject is the last segment and the workload the one before. The CPU suffix plays no part. |
| BenchResult.StatFor | pkg/parser/bench_result.go:79-100 | sec/op, B/op and allocs/op map to Execution Time, Memory Usage and Allocations, converted to the flag unit. Any other unit gives the zero Stat. |
| BenchResult.StatsFor | pkg/parser/bench_result.go:76-103 | One statistic per value, in order. |
| BenchResult.ValueStats | pkg/parser/bench_result.go:76-103 | The value loop returns `StatsFor`, and sets `HasMemStats` exactly when a B/op value is seen. |
| BenchResult.Results | pkg/parser/bench_result.go:62-111 | Results come only from benchmark lines, at most one per record. |
| BenchResult.Cpus | pkg/parser/bench_result.go:70-72 | The CPU suffixes of the benchmark lines, in order. |
| BenchResult.ParseBenchmarkResults | pkg/parser/bench_result.go:62-111 | The record loop returns `Results`. `CPUCount` has seen every suffix, and the memory flag is set exactly when a line reports B/op. |
| BenchResult.ParseRecord | pkg/parser/bench_result.go:70-110 | One benchmark line yields `ResultOf` the line. `CPUCount` is updated from its suffix, and the memory flag is set when the line reports B/op. |
| BenchResult.RecordStep | pkg/parser/bench_result.go:62-111 | One record adds its own result, if any, and its suffix, and updates the memory flag. |
| BenchResult.ResultsAppend | pkg/parser/bench_result.go:62-111 | The results of two streams are those of the first followed by those of the second: one result per line, in input order. |
| BenchResult.SingleRecord | pkg/parser/bench_result.go:63-68 | A benchmark line gives its own result. Any other record gives none. |
| BenchData.ParseBenchmarkName | pkg/parser/bench_data.go:24-39 | The name is the base followed by every non-"-" part. The CPU suffix is the last "-" part. |
| BenchData.JoinedNameKeepsPath | pkg/parser/bench_data.go:24-39 | When parts start with "/", the name is the base followed by the path the text-format parser keeps. |
| BenchData.ShouldInclude | pkg/parser/bench_data.go:43-54 | With no filter, every benchmark is included. Otherwise the filter regex decides. |
| BenchData.GroupsOf | pkg/parser/bench_data.go:82-86 | The group regex is used when set. Otherwise the pattern parse is used, with the pattern check as written. |
| BenchData.Lookup | pkg/parser/bench_data.go:92 | A Go map lookup: the value, or "" for a missing key. |
| BenchData.PatternGroupsLeaveAxesEmpty | pkg/parser/bench_data.go:85-92 | The pattern parser never fills "xAxis" or "yAxis", even with pieces the check as written lets through, so pattern-grouped records have empty axes. |
| BenchData.AxesFailPartTest | pkg/parser/parse_pattern.go:50 | Neither "xAxis" nor "yAxis" passes the part test as written. |
| BenchData.Classify | pkg/parser/bench_data.go:101-141 | sec/op, B/op and allocs/op are converted to the flag units with "/op" labels. Byte rates are Throughput, falling back to Value/Unit when OrigValue is 0 or OrigUnit is empty. Other "/s" units are Throughput and anything else is Metric. |
| BenchData.DefaultUnitsKeptApart | pkg/parser/bench_data.go:130-141 | Two values of units the switch does not know share a label exactly when their units are equal. |
| BenchData.ClassifyAll | pkg/parser/bench_data.go:98-144 | One statistic per value, in order. |
| BenchData.ValueStats | pkg/parser/bench_data.go:98-144 | The value loop returns `ClassifyAll`. |
| BenchData.CollectInStep | pkg/parser/bench_data.go:146-153 | Records and iteration counts are appended together and stay the same length. |
| BenchData.CollectAppend | pkg/parser/bench_data.go:64-154 | The loop over two streams is the loop over the first, then the second: one entry per included line, in input order. |
| BenchData.ErrorStops | pkg/parser/bench_data.go:88-90 | After a grouping error, nothing more changes. |
| BenchData.NothingFilteredKeepsEveryLine | pkg/parser/bench_data.go:64-154 | With no filter and a pattern the check as written accepts, every benchmark line gives a record, as in the text-format parser, with its iteration count. |
| BenchData.HasDifferentIters | pkg/parser/bench_data.go:156-165 | The flag is true exactly when some iteration count differs from the first. |
| BenchData.AppendIterations | pkg/parser/bench_data.go:167-174 | Every record in the array gets its own Iterations statistic appended, in place. |
| BenchData.WithIterations | pkg/parser/bench_data.go:167-174 | Each record keeps its statistics and gains one Iterations statistic at the end. |
| BenchData.IterationsOnlyWhenCountsDiffer | pkg/parser/bench_data.go:156-174 | The Iterations statistic is added exactly when the counts differ. With one record, or equal counts, the records are returned as gathered. |
| BenchData.IterationsStatValue | pkg/parser/bench_data.go:169-172 | The appended statistic carries the record's own count in the number unit. |
| BenchData.AddIterations | pkg/parser/bench_data.go:156-174 | The end of the parse returns `Finish`. |
| BenchData.ParseBenchmarkData | pkg/parser/bench_data.go:56-177 | The result is the specification's outcome. `CPUCount` has seen the suffix of every included line, and `HasMemStats` is untouched. |
| Validators.ScalarOutcome | shared/utils/validators.go:30-56 | When value and default are both empty, the value is left alone. Otherwise a normalised value that passes is kept, and anything else becomes the default. |
| Validators.ScalarRuleIdempotent | shared/utils/validators.go:30-56 | Applying a rule twice equals applying it once, for an idempotent normaliser and a valid default. |
| Validators.ApplyScalar | shared/utils/validators.go:30-56 | The flag is written through its pointer with `ScalarOutcome` of its old value. |
| Validators.NormalizeAll | shared/utils/validators.go:59-63 | Every item, normalised. |
| Validators.NormalizedUpTo | shared/utils/validators.go:59-74 | Items before n are normalised and the rest are as they were. |
| Validators.FirstRejected | shared/utils/validators.go:59-74 | The position of the first item whose normalised form fails, or none when all pass. |
| Validators.SliceOutcome | shared/utils/validators.go:57-85 | The new list is the default, or a list in which every item passes. |
| Validators.SliceAllOrNothing | shared/utils/validators.go:70-85 | The normalised list is kept exactly when every item passes. One failing item gives the default list. |
| Validators.ApplySlice | shared/utils/validators.go:57-85 | If every item passes, the backing array holds the normalised items. Otherwise the flag points at the default list, and the old array keeps the items normalised up to and including the failing one. |
| Validators.NormalizeItems | shared/utils/validators.go:58-74 | The item loop reports the list valid exactly when no item is rejected. The array then holds every item normalised, or the items normalised up to and including the first rejected one. |
| Validators.CheckItem | shared/utils/validators.go:60-68 | One item is normalised in place, with the rest of the array unchanged, and the result says whether its normalised form passes. |
| Validators.FirstRejectedIs | shared/utils/validators.go:70-73 | A failing item after only passing ones is the first rejected. |
| Validators.ApplyRule | shared/utils/validators.go:29-86 | One rule on its flag: a list flag ends on its old array or on its default. Unless the list's array is its own default, the flag holds what the rule makes of it. |
| Validators.ApplyRuleAt | shared/utils/validators.go:29-86 | One turn of the loop: with the rules apart, earlier flags keep what they got and rule i makes its own. |
| Validators.ApplyValidationRules | shared/utils/validators.go:28-88 | When the rules write separate flags and arrays, each flag ends with what its rule makes of its starting value. |
| Validators.SubjectIsValidPattern | cmd/flag_validation_rules.go:50 | The fallback pattern "subject" passes the check as written and the intended one. |
| Validators.CommandRulesYieldKnownValues | cmd/flag_validation_rules.go:11-52 | Whatever the user passes, each unit and the format end as a known value, and the group pattern ends up one the pattern check as written accepts. |
| BenchProgress.StripProcs | cmd/bench_progress.go:34-41 | The name is the field up to its last '-', or the whole field when it has none. |
| BenchProgress.RawExtractName | cmd/bench_progress.go:23-42 | "" for a line without "ns/op" or without fields. Otherwise the first field is stripped at its last '-'. |
| BenchProgress.JsonExtractName | cmd/bench_progress.go:49-55 | The event's test name exactly when there is an event and its test starts with "Benchmark". Otherwise "". |
| BenchProgress.Step | cmd/bench_progress.go:100-107 | The count goes up exactly for a result line. A non-empty name becomes current and is shown with the count. An empty name changes neither. |
| BenchProgress.ProgressManager.constructor | cmd/bench_progress.go:72-74 | Nothing counted, no name, nothing shown. |
| BenchProgress.ProgressManager.ProcessLine | cmd/bench_progress.go:90-108 | The new state is `Step` of the old state on what the line tells. |
| BenchProgress.RunAppend | cmd/bench_progress.go:90-108 | Processing two batches of lines equals processing their concatenation. |
| BenchProgress.CountGrows | cmd/bench_progress.go:100-107 | The count and the descriptions never shrink and grow by at most one per line. Earlier descriptions stay. |
| BenchProgress.ResultLines | cmd/bench_progress.go:100-102 | The number of result lines: 0 exactly when there are none, and all the lines exactly when every line is one. |
| BenchProgress.CountIsResultLines | cmd/bench_progress.go:100-102 | The count rises by exactly the number of lines that contain "ns/op". |
| BenchProgress.LastNamed | cmd/bench_progress.go:104-107 | The position of the last line that yields a name, with no naming line after it, or none. |
| BenchProgress.NameIsLatestExtracted | cmd/bench_progress.go:104-107 | The current name comes from the latest naming line, and the last description shows it with the count as of that line. With no such line, name and descriptions are unchanged. |
| TmpFiles.TmpFilesManager.constructor | shared/tmp_files_manager.go:15-19 | The list starts empty. |
| TmpFiles.TmpFilesManager.Store | shared/tmp_files_manager.go:21-23 | The paths are appended in order. No arguments leave the list as it was. |
| TmpFiles.TmpFilesManager.RemoveAll | shared/tmp_files_manager.go:25-31 | Every stored path is removed in order, and the list is then empty. |

## Left out

- Array.prototype.sort is engine code. It is modelled as a stable insertion sort on values (`Sorting.SortBy`), not as an in-place array sort.
- Option builders carry colour keys instead of colour strings. The assigner calls they make for each series are not threaded through them. The assigner is modelled on its own.
- The base chart options, the label formatters and the dataZoom configuration are left out. getDataZoomConfig is not part of this model, so the bar options record only the category count it receives.
- Float64 arithmetic is modelled with reals. `toFixed` rounding is left out, both in labels and in the stat rounding in pkg/template/ui/src/composables/useBenchmarkData.ts:39-48. Pie label percentages are left out too.
- Dark-mode detection and localStorage persistence in the settings store are left out.
- I/O is left out: `window.location` reading, `window.history.replaceState`, and the `watch` wiring. URLSearchParams' component encoding is a parameter that must be invertible.
- `getBenchmarks` loading is left out. The selection starts from a given list of benchmarks.
- Regular expressions are oracles: the filter regex (`matches`) and `ParseBenchmarkNameWithRegex` (`regexGroups`). `regexp.Compile` failures on the filter are left out.
- The benchfmt reader is an oracle: a stream of optional benchmark lines. File opening (`MustOpenFile`, `os.Open`) and `ConvertJsonBenchToText` are left out.
- `json.Unmarshal` in `ProcessLine` is an oracle. The decoded event arrives as the `parsed` parameter.
- The progress bar's rendering (style, Sprintf) and `Finish` are left out. The bar is a log of the descriptions it was given.
- `shared.OS`, `Arch`, `Pkg` and `CPU`, which bench_data.go copies from each line's configuration, are left out.
- The debug `fmt.Println` in `ParseBenchmarkNameToGroups` and the stderr warnings of `ApplyValidationRules` are left out.
- `ExitWithError` is modelled as an error result that stops the record loop. Process exit is not modelled.
- `utils.FormatNumber` is not part of this model. `Formatter.FormatAllocs`, which has the same K/M/B/T scaling, stands in for it.
- `strings.ToLower`, `strings.ToUpper` and JavaScript's `toLowerCase` are modelled as ASCII case mapping.
- `Stat.NotPerOp` is never set by the parsers and is not modelled.
- `IsBenchJSONFile` reads a file and is left out.
- The outcome of `os.Remove` in `RemoveAll` is ignored, as in the source. The model records which paths were asked to be removed.
- Validators.ApplyValidationRules: the final flag values are stated only when the rules write separate flags, lists and backing arrays, none of them a default list. Rules that share a flag are applied in order, but the result is not stated.
- Validators.ApplyRule: the outcome of a list rule is not stated when the list's backing array is its own default list.
- Colors.ColorAssigner.GetNextColorFor and ColorCycle.ColorCycler.GetNextColorFor step the cursor with the corrected wrap (see Findings). The as-written step is modelled by `Colors.NextColorForAsWritten` and `ColorCycle.AsWrittenCursorCounts`.
- Under the parse_pattern.go keys, pkg/parser/bench_data.go:92 reads "xAxis" and "yAxis", which the pattern parser never writes. The model keeps the code as written (`BenchData.PatternGroupsLeaveAxesEmpty`). The regex path is an oracle, so its axes are whatever it returns.

## Findings

| source | as written | input that shows it | evidently intended | confidence | as-written member | corrected member |
|---|---|---|---|---|---|---|
| pkg/template/ui/src/lib/utils.ts:39-43, shared/color_list.go:73-77 | the colour cursor resets only when it equals the palette length, so it takes length + 1 values and `i % length` returns colour 0 twice in a row | from a reset, the 11th and 12th distinct keys with the 10-colour UI palette; in Go, the call after the last colour and the next one | the cursor wraps to 0 after the last colour, so consecutive new keys get distinct colours | not executed | Colors.AsWrittenRepeatsFirstColor, ColorCycle.AsWrittenRepeatsFirstColor | Colors.CorrectedEleventhAndTwelfthDiffer, ColorCycle.ConsecutiveCallsDiffer |
| pkg/parser/parse_pattern.go:50 | `^[nsw]\|name\|subject\|workload$` is an alternation of four branches, so `^` and `$` anchor only the first and last branch | the pattern "sfoo", or "rename", is accepted | a part must be exactly name, subject, workload, n, s or w | not executed | ParsePattern.AsWrittenAcceptsNonKeys, ParsePattern.AsWrittenParseKeepsNonKeys | ParsePattern.ValidatePatternAccepts |
| pkg/template/ui/src/composables/useUrlRouter.ts:83-85 | the sort parameter is checked lower-cased but stored as given, and the comparators test the order against "asc" exactly | `?s=ASC` enables sorting in descending order | the accepted order is stored in lower case, so `ASC` sorts ascending | not executed | UrlRouter.SortParamAsWrittenReverses | UrlRouter.SortParamFollowsDirection |
