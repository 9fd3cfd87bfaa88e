/**
 * The pie chart's options (charts/usePieChartOptions.ts): one pie of the x
 * series' totals, and, when the chart has a y axis, a second pie of the
 * column totals per y label; with no x axis only that second pie is drawn.
 */
module PieChartOptions {
  import opened Wrappers
  import opened SeqUtil
  import opened ChartTypes
  import opened Common
  import opened Sorting
  import opened ChartConfig
  import Colors

  /**
   * The total of one x series: the sum of its values when the chart has a
   * y axis, otherwise its first value (`values[0] || 0`).
   */
  function PieTotal(s: SeriesData, hasYAxis: bool): (t: real)
    ensures hasYAxis ==> t == Sum(s.values)
    ensures !hasYAxis ==> t == if s.values == [] then 0.0 else s.values[0]
  {
    if hasYAxis then Sum(s.values) else if s.values == [] then 0.0 else s.values[0]
  }

  function WithTotals(series: seq<SeriesData>, hasYAxis: bool): (r: seq<TotalledSeries>)
    ensures |r| == |series|
    ensures forall k :: 0 <= k < |series| ==> r[k] == TotalledSeries(series[k], PieTotal(series[k], hasYAxis))
  {
    if series == [] then []
    else WithTotals(series[..|series| - 1], hasYAxis) + [TotalledSeries(series[|series| - 1], PieTotal(series[|series| - 1], hasYAxis))]
  }

  function TotalKey(t: TotalledSeries): real {
    t.total
  }

  /** `sortedData`: the totalled x series, sorted with `sortByTotal(order)` when sorting is on. */
  function SortedTotals(chart: ChartData, sort: Sort): (r: seq<TotalledSeries>)
    ensures |r| == |chart.series|
    ensures !sort.enabled ==> r == WithTotals(chart.series, Colors.HasYAxis(chart.yAxis))
    ensures multiset(r) == multiset(WithTotals(chart.series, Colors.HasYAxis(chart.yAxis)))
    ensures sort.enabled ==> SortedBy(r, sort.order, TotalKey)
  {
    var t := WithTotals(chart.series, Colors.HasYAxis(chart.yAxis));
    SortByPermutation(t, sort.order, TotalKey);
    SortBySorted(t, sort.order, TotalKey);
    if sort.enabled then SortBy(t, sort.order, TotalKey) else t
  }

  /** The slices of the x pie: one per series, named after its x label, worth its total. */
  function XSlices(ts: seq<TotalledSeries>): (slices: seq<PieSlice>)
    ensures |slices| == |ts|
    ensures forall k :: 0 <= k < |ts| ==> slices[k] == PieSlice(ts[k].series.xAxis, ts[k].total, ts[k].series.xAxis)
  {
    if ts == [] then []
    else
      var t := ts[|ts| - 1];
      XSlices(ts[..|ts| - 1]) + [PieSlice(t.series.xAxis, t.total, t.series.xAxis)]
  }

  /** The column sum at `index`: the series' values there (0 past the end), added left to right. */
  function ColumnSum(ts: seq<TotalledSeries>, index: nat): real {
    if ts == [] then 0.0 else ColumnSum(ts[..|ts| - 1], index) + ValueAt(ts[|ts| - 1].series.values, index)
  }

  /** The map the y totals are collected in: each label, in order, set to its column's sum; a later duplicate label overwrites. */
  function YTotals(yAxis: seq<string>, ts: seq<TotalledSeries>): map<string, real> {
    if yAxis == [] then map[]
    else YTotals(yAxis[..|yAxis| - 1], ts)[yAxis[|yAxis| - 1] := ColumnSum(ts, |yAxis| - 1)]
  }

  /** The y totals collected by iterating over the labels. */
  method FillYTotals(yAxis: seq<string>, ts: seq<TotalledSeries>) returns (totals: map<string, real>)
    ensures totals == YTotals(yAxis, ts)
  {
    totals := map[];
    for i := 0 to |yAxis|
      invariant totals == YTotals(yAxis[..i], ts)
    {
      var sum := 0.0;
      for k := 0 to |ts|
        invariant sum == ColumnSum(ts[..k], i)
      {
        assert ts[..k + 1][..k] == ts[..k];
        sum := sum + ValueAt(ts[k].series.values, i);
      }
      assert ts[..|ts|] == ts;
      assert yAxis[..i + 1][..i] == yAxis[..i];
      totals := totals[yAxis[i] := sum];
    }
    assert yAxis[..|yAxis|] == yAxis;
  }

  /**
   * Every y label is a key of the totals map, and its total is the sum of the
   * column of its last occurrence; with distinct labels, of its own column.
   */
  lemma {:induction false} YTotalsAreColumnSums(yAxis: seq<string>, ts: seq<TotalledSeries>, j: nat)
    requires j < |yAxis|
    ensures yAxis[j] in YTotals(yAxis, ts)
    ensures (forall m :: j < m < |yAxis| ==> yAxis[m] != yAxis[j]) ==> YTotals(yAxis, ts)[yAxis[j]] == ColumnSum(ts, j)
    ensures forall y :: y in YTotals(yAxis, ts) ==> y in yAxis
  {
    var n := |yAxis| - 1;
    if j < n {
      YTotalsAreColumnSums(yAxis[..n], ts, j);
    } else if n > 0 {
      YTotalsAreColumnSums(yAxis[..n], ts, 0);
    }
  }

  /** The slices of the y pie, one per y label in label order: `yAxisTotals.get(y) || 0`. */
  function YSlices(yAxis: seq<string>, totals: map<string, real>): (slices: seq<PieSlice>)
    ensures |slices| == |yAxis|
    ensures forall j :: 0 <= j < |yAxis| ==>
      slices[j] == PieSlice(yAxis[j], if yAxis[j] in totals then totals[yAxis[j]] else 0.0, yAxis[j])
  {
    if yAxis == [] then []
    else
      var y := yAxis[|yAxis| - 1];
      YSlices(yAxis[..|yAxis| - 1], totals) + [PieSlice(y, if y in totals then totals[y] else 0.0, y)]
  }

  function SliceValue(p: PieSlice): real {
    p.value
  }

  /** Sorting slices by value with `sortByValue(order)` when sorting is on. */
  function OrderSlices(slices: seq<PieSlice>, sort: Sort): (r: seq<PieSlice>)
    ensures !sort.enabled ==> r == slices
    ensures |r| == |slices| && multiset(r) == multiset(slices)
    ensures sort.enabled ==> SortedBy(r, sort.order, SliceValue)
    ensures SumOf(r, SliceValue) == SumOf(slices, SliceValue)
  {
    SortByPermutation(slices, sort.order, SliceValue);
    SortBySorted(slices, sort.order, SliceValue);
    SortByKeepsSum(slices, sort.order, SliceValue, SliceValue);
    if sort.enabled then SortBy(slices, sort.order, SliceValue) else slices
  }

  /** The key the slices are sorted by compares exactly as `sortByValue(order)`. */
  lemma SliceOrderIsSortByValue(order: string, a: PieSlice, b: PieSlice)
    ensures CompareBy(order, SliceValue(a), SliceValue(b)) == SortByValue(order, a, b)
  {
  }

  /** One pie: its name, slices, whether labels show, inner and outer radius and centre, in percent. */
  datatype Pie = Pie(name: string, slices: seq<PieSlice>, showLabels: bool, innerRadius: nat, outerRadius: nat, centerX: nat, centerY: nat)

  /** A pie's caption: its text and its horizontal position in percent; all sit at 5% from the top. */
  datatype PieTitle = PieTitle(text: string, left: nat, top: nat, color: string)

  datatype PieOptions = PieOptions(legend: Legend, titles: seq<PieTitle>, series: seq<Pie>)

  /** `createPieSeriesConfig` with its default radius 40%-70% and centre 50%/50%. */
  function SinglePie(name: string, slices: seq<PieSlice>, showLabels: bool): Pie {
    Pie(name, slices, showLabels, 40, 70, 50, 50)
  }

  /** The `options` value, given the y totals map. */
  function OptionsWith(chart: ChartData, sort: Sort, showLabels: bool, isDark: bool, totals: map<string, real>): PieOptions {
    var ts := SortedTotals(chart, sort);
    var styling := GetChartStyling(isDark);
    var xPie := XSlices(ts);
    if !Colors.HasYAxis(chart.yAxis) then
      PieOptions(Hidden, [], [SinglePie(chart.statType, xPie, showLabels)])
    else
      var yPie := OrderSlices(YSlices(chart.yAxis, totals), sort);
      if !Colors.HasXAxis(chart.series) then
        PieOptions(Hidden, [], [SinglePie(chart.statType, yPie, showLabels)])
      else
        PieOptions(Hidden,
          [PieTitle("X-Axis", 25, 5, styling.textColor), PieTitle("Y-Axis", 75, 5, styling.textColor)],
          [Pie("By X-Axis", xPie, showLabels, 30, 60, 25, 50), Pie("By Y-Axis", yPie, showLabels, 30, 60, 75, 50)])
  }

  /** The `options` value for a chart, the sort setting, the label flag and the theme. */
  function Options(chart: ChartData, sort: Sort, showLabels: bool, isDark: bool): PieOptions {
    OptionsWith(chart, sort, showLabels, isDark, YTotals(chart.yAxis, SortedTotals(chart, sort)))
  }

  /** The builder, filling the y totals map with a loop. */
  method BuildOptions(chart: ChartData, sort: Sort, showLabels: bool, isDark: bool) returns (o: PieOptions)
    ensures o == Options(chart, sort, showLabels, isDark)
  {
    var ts := SortedTotals(chart, sort);
    var totals := FillYTotals(chart.yAxis, ts);
    o := OptionsWith(chart, sort, showLabels, isDark, totals);
  }

  /**
   * The three layouts: without a y axis, one pie of the x totals named after
   * the statistic, at the default radius and centre; with a y axis but no x
   * axis, one pie of the y totals; with both, the x pie at 25% and the y pie
   * at 75%, radius 30%-60%, captioned "X-Axis" and "Y-Axis". No legend in
   * any of them.
   */
  lemma Layouts(chart: ChartData, sort: Sort, showLabels: bool, isDark: bool)
    ensures var o := Options(chart, sort, showLabels, isDark);
      var xPie := XSlices(SortedTotals(chart, sort));
      && o.legend == Hidden
      && (!Colors.HasYAxis(chart.yAxis) ==>
            o.titles == [] && o.series == [Pie(chart.statType, xPie, showLabels, 40, 70, 50, 50)])
      && (Colors.HasYAxis(chart.yAxis) && !Colors.HasXAxis(chart.series) ==>
            o.titles == [] && |o.series| == 1 && o.series[0].name == chart.statType
            && |o.series[0].slices| == |chart.yAxis|)
      && (Colors.HasYAxis(chart.yAxis) && Colors.HasXAxis(chart.series) ==>
            |o.series| == 2 && o.series[0] == Pie("By X-Axis", xPie, showLabels, 30, 60, 25, 50)
            && o.series[1].name == "By Y-Axis" && |o.series[1].slices| == |chart.yAxis|
            && o.series[1].innerRadius == 30 && o.series[1].outerRadius == 60
            && o.series[1].centerX == 75 && o.series[1].centerY == 50
            && |o.titles| == 2 && o.titles[0].text == "X-Axis" && o.titles[0].left == 25
            && o.titles[1].text == "Y-Axis" && o.titles[1].left == 75)
  {
    var ts := SortedTotals(chart, sort);
    assert Options(chart, sort, showLabels, isDark) == OptionsWith(chart, sort, showLabels, isDark, YTotals(chart.yAxis, ts));
  }

  /**
   * The x pie has one slice per x series, worth its total (its sum with a y
   * axis, its first value without), in plotting order: sorted by total with
   * the comparator when sorting is on, the chart's order when it is off.
   */
  lemma XSlicesAreTotals(chart: ChartData, sort: Sort, k: nat)
    requires k < |chart.series|
    ensures var ts := SortedTotals(chart, sort); var xPie := XSlices(ts);
      && |xPie| == |chart.series|
      && xPie[k].value == PieTotal(ts[k].series, Colors.HasYAxis(chart.yAxis))
      && xPie[k].name == ts[k].series.xAxis
      && multiset(ts) == multiset(WithTotals(chart.series, Colors.HasYAxis(chart.yAxis)))
      && (!sort.enabled ==> ts[k].series == chart.series[k])
      && (sort.enabled ==> forall i :: 0 <= i < k ==> CompareBy(sort.order, xPie[i].value, xPie[k].value) <= 0.0)
  {
    var ts := SortedTotals(chart, sort);
    assert ts[k] in multiset(WithTotals(chart.series, Colors.HasYAxis(chart.yAxis)));
  }

  /**
   * The y pie has one slice per y label; with distinct labels each is worth
   * the sum of its column over the x series.
   */
  lemma {:induction false} YSlicesAreColumnSums(chart: ChartData, sort: Sort, j: nat)
    requires Distinct(chart.yAxis) && j < |chart.yAxis|
    ensures var ts := SortedTotals(chart, sort);
      YSlices(chart.yAxis, YTotals(chart.yAxis, ts))[j] == PieSlice(chart.yAxis[j], ColumnSum(ts, j), chart.yAxis[j])
  {
    YTotalsAreColumnSums(chart.yAxis, SortedTotals(chart, sort), j);
  }

  /** The sum of the first `n` column sums. */
  function ColumnsTotal(ts: seq<TotalledSeries>, n: nat): real {
    if n == 0 then 0.0 else ColumnsTotal(ts, n - 1) + ColumnSum(ts, n - 1)
  }

  /** The sum of the first `n` entries of `v`, 0 past its end. */
  function PrefixSum(v: seq<real>, n: nat): real {
    if n == 0 then 0.0 else PrefixSum(v, n - 1) + ValueAt(v, n - 1)
  }

  lemma {:induction false} PrefixSumIsSum(v: seq<real>)
    ensures PrefixSum(v, |v|) == Sum(v)
  {
    if v != [] {
      var v' := v[..|v| - 1];
      PrefixSumIsSum(v');
      PrefixSumAgrees(v', v, |v'|);
    }
  }

  lemma {:induction false} PrefixSumAgrees(a: seq<real>, b: seq<real>, n: nat)
    requires n <= |a| <= |b| && a == b[..|a|]
    ensures PrefixSum(a, n) == PrefixSum(b, n)
  {
    if n > 0 {
      PrefixSumAgrees(a, b, n - 1);
    }
  }

  lemma {:induction false} ColumnsTotalSnoc(ts: seq<TotalledSeries>, n: nat)
    requires ts != []
    ensures ColumnsTotal(ts, n) == ColumnsTotal(ts[..|ts| - 1], n) + PrefixSum(ts[|ts| - 1].series.values, n)
  {
    if n > 0 {
      ColumnsTotalSnoc(ts, n - 1);
    }
  }

  /** Adding up the whole table by columns gives the sum of its rows. */
  lemma {:induction false} ColumnsTotalIsRowsTotal(ts: seq<TotalledSeries>, n: nat)
    requires forall k :: 0 <= k < |ts| ==> |ts[k].series.values| == n
    ensures ColumnsTotal(ts, n) == SumOf(ts, RowSum)
  {
    if ts != [] {
      var ts' := ts[..|ts| - 1];
      ColumnsTotalIsRowsTotal(ts', n);
      ColumnsTotalSnoc(ts, n);
      PrefixSumIsSum(ts[|ts| - 1].series.values);
    } else {
      ColumnsTotalOfNothing(n);
    }
  }

  lemma {:induction false} ColumnsTotalOfNothing(n: nat)
    ensures ColumnsTotal([], n) == 0.0
  {
    if n > 0 {
      ColumnsTotalOfNothing(n - 1);
    }
  }

  function RowSum(t: TotalledSeries): real {
    Sum(t.series.values)
  }

  /** The y slices before ordering add up to the column totals. */
  lemma {:induction false} YSlicesSum(yAxis: seq<string>, ts: seq<TotalledSeries>)
    requires Distinct(yAxis)
    ensures SumOf(YSlices(yAxis, YTotals(yAxis, ts)), SliceValue) == ColumnsTotal(ts, |yAxis|)
  {
    var slices := YSlices(yAxis, YTotals(yAxis, ts));
    forall j | 0 <= j < |yAxis| ensures slices[j].value == ColumnSum(ts, j) {
      YTotalsAreColumnSums(yAxis, ts, j);
    }
    SlicesSumToColumns(slices, ts, |yAxis|);
    assert slices[..|yAxis|] == slices;
  }

  lemma {:induction false} SlicesSumToColumns(slices: seq<PieSlice>, ts: seq<TotalledSeries>, n: nat)
    requires n <= |slices|
    requires forall j :: 0 <= j < n ==> slices[j].value == ColumnSum(ts, j)
    ensures SumOf(slices[..n], SliceValue) == ColumnsTotal(ts, n)
  {
    if n > 0 {
      SlicesSumToColumns(slices, ts, n - 1);
      assert slices[..n][..n - 1] == slices[..n - 1];
    }
  }

  /** The x slices add up to the rows' totals when the chart has a y axis. */
  lemma {:induction false} XSlicesSum(ts: seq<TotalledSeries>)
    requires forall k :: 0 <= k < |ts| ==> ts[k].total == Sum(ts[k].series.values)
    ensures SumOf(XSlices(ts), SliceValue) == SumOf(ts, RowSum)
  {
    if ts != [] {
      var ts' := ts[..|ts| - 1];
      XSlicesSum(ts');
      assert XSlices(ts)[..|ts| - 1] == XSlices(ts');
    }
  }

  /**
   * With both axes, and every series holding one value per y label (as the
   * chart data builder makes them) with distinct labels, the two pies show
   * the same grand total, whether or not they were sorted.
   */
  lemma {:induction false} PiesHaveEqualTotals(chart: ChartData, sort: Sort, showLabels: bool, isDark: bool)
    requires Colors.HasYAxis(chart.yAxis) && Colors.HasXAxis(chart.series) && Distinct(chart.yAxis)
    requires forall k :: 0 <= k < |chart.series| ==> |chart.series[k].values| == |chart.yAxis|
    ensures var o := Options(chart, sort, showLabels, isDark);
      |o.series| == 2 && SumOf(o.series[0].slices, SliceValue) == SumOf(o.series[1].slices, SliceValue)
  {
    var ts := SortedTotals(chart, sort);
    var w := WithTotals(chart.series, true);
    forall k | 0 <= k < |ts|
      ensures ts[k].total == Sum(ts[k].series.values) && |ts[k].series.values| == |chart.yAxis|
    {
      assert ts[k] in multiset(w);
      var i :| 0 <= i < |w| && w[i] == ts[k];
    }
    XSlicesSum(ts);
    ColumnsTotalIsRowsTotal(ts, |chart.yAxis|);
    YSlicesSum(chart.yAxis, ts);
  }
}
