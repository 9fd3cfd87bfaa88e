/**
 * What the bar and the line builders (charts/useBarChartOptions.ts and
 * charts/useLineChartOptions.ts) share: the `sortedData` step, which orders
 * the x series by their totals, and the transposition that turns the y labels
 * into plotted series, one point per x series.
 */
module Cartesian {
  import opened Wrappers
  import opened SeqUtil
  import opened ChartTypes
  import opened Common
  import opened Sorting
  import Colors

  /** `series.values.reduce((sum, val) => sum + val, 0)`: the key the x series are sorted by. */
  function Total(s: SeriesData): real {
    Sum(s.values)
  }

  /** The result of `sortedData`: the x series in plotting order, their names, and whether there is a y axis. */
  datatype SortedData = SortedData(series: seq<SeriesData>, xAxisData: seq<string>, hasYAxis: bool)

  /** The x names of the series, in order. */
  function XNames(series: seq<SeriesData>): (names: seq<string>)
    ensures |names| == |series|
    ensures forall k :: 0 <= k < |series| ==> names[k] == series[k].xAxis
  {
    if series == [] then [] else XNames(series[..|series| - 1]) + [series[|series| - 1].xAxis]
  }

  /**
   * `sortedData`: with sorting off, the chart's series as they are; with it
   * on, the series stably sorted by total with `sortByTotal(order)`.
   */
  function Sorted(chart: ChartData, sort: Sort): (r: SortedData)
    ensures |r.series| == |chart.series| && r.xAxisData == XNames(r.series)
    ensures !sort.enabled ==> r.series == chart.series
    ensures r.hasYAxis == Colors.HasYAxis(chart.yAxis)
  {
    var series := if sort.enabled then SortBy(chart.series, sort.order, Total) else chart.series;
    SortedData(series, XNames(series), Colors.HasYAxis(chart.yAxis))
  }

  /**
   * With sorting on, the plotted series are the chart's series rearranged
   * (nothing added, nothing lost), ordered by total as the comparator says,
   * with series of equal total in their original order; xAxisData follows
   * the series.
   */
  lemma SortedIsOrderedPermutation(chart: ChartData, sort: Sort, k: real)
    requires sort.enabled
    ensures var r := Sorted(chart, sort);
      && multiset(r.series) == multiset(chart.series)
      && SortedBy(r.series, sort.order, Total)
      && Filter(r.series, KeyIs(Total, k)) == Filter(chart.series, KeyIs(Total, k))
      && forall i :: 0 <= i < |r.series| ==> r.xAxisData[i] == r.series[i].xAxis
  {
    SortByPermutation(chart.series, sort.order, Total);
    SortBySorted(chart.series, sort.order, Total);
    SortByStable(chart.series, sort.order, Total, k);
  }

  /** The shape of a plotted series. */
  datatype SeriesKind = Bar | Line(symbol: string, symbolSize: nat)

  /**
   * One plotted series: its legend name, its points (a point may be
   * `undefined`, None), whether labels are shown, and the key its colour
   * is requested for from the colour allocator.
   */
  datatype ChartSeries = ChartSeries(name: string, kind: SeriesKind, data: seq<Option<real>>, showLabels: bool, colorKey: string)

  /** `series.map(s => s.values[0])`: the single-category points, undefined for a series with no values. */
  function FirstValues(series: seq<SeriesData>): (points: seq<Option<real>>)
    ensures |points| == |series|
    ensures forall k :: 0 <= k < |series| ==>
      points[k] == if series[k].values == [] then None else Some(series[k].values[0])
  {
    if series == [] then []
    else
      var s := series[|series| - 1];
      FirstValues(series[..|series| - 1]) + [if s.values == [] then None else Some(s.values[0])]
  }

  /** `series.map(s => s.values[yIndex] || 0)`: the points of the y label at `yIndex`. */
  function Column(series: seq<SeriesData>, yIndex: nat): (points: seq<Option<real>>)
    ensures |points| == |series|
    ensures forall k :: 0 <= k < |series| ==> points[k] == Some(ValueAt(series[k].values, yIndex))
  {
    if series == [] then [] else Column(series[..|series| - 1], yIndex) + [Some(ValueAt(series[|series| - 1].values, yIndex))]
  }

  /**
   * The dual-category transposition: one series per y label, named after it,
   * whose k-th point is the k-th x series' value at that label.
   */
  function Transpose(yAxis: seq<string>, series: seq<SeriesData>, kind: SeriesKind, showLabels: bool): (groups: seq<ChartSeries>)
    ensures |groups| == |yAxis|
    ensures forall j :: 0 <= j < |yAxis| ==>
      groups[j] == ChartSeries(yAxis[j], kind, Column(series, j), showLabels, yAxis[j])
  {
    if yAxis == [] then []
    else
      var j := |yAxis| - 1;
      Transpose(yAxis[..j], series, kind, showLabels) + [ChartSeries(yAxis[j], kind, Column(series, j), showLabels, yAxis[j])]
  }

  /** The legend entries of the transposed series: their names. */
  function SeriesNames(groups: seq<ChartSeries>): (names: seq<string>)
    ensures |names| == |groups|
    ensures forall k :: 0 <= k < |groups| ==> names[k] == groups[k].name
  {
    if groups == [] then [] else SeriesNames(groups[..|groups| - 1]) + [groups[|groups| - 1].name]
  }

  /** The transposed series are named by the y labels, in order. */
  lemma TransposeNames(yAxis: seq<string>, series: seq<SeriesData>, kind: SeriesKind, showLabels: bool)
    ensures SeriesNames(Transpose(yAxis, series, kind, showLabels)) == yAxis
  {
    var t := Transpose(yAxis, series, kind, showLabels);
    forall j | 0 <= j < |yAxis|
      ensures SeriesNames(t)[j] == yAxis[j]
    {
      assert t[j].name == yAxis[j];
    }
  }

  /**
   * The transposition loses nothing: the value of x series k at y label j is
   * point k of series j, and a y label past the end of a series' values
   * shows 0.
   */
  lemma {:induction false} TransposeKeepsEveryValue(yAxis: seq<string>, series: seq<SeriesData>, kind: SeriesKind, showLabels: bool, j: nat, k: nat)
    requires j < |yAxis| && k < |series|
    ensures var g := Transpose(yAxis, series, kind, showLabels)[j];
      && g.name == yAxis[j]
      && |g.data| == |series|
      && (j < |series[k].values| ==> g.data[k] == Some(series[k].values[j]))
      && (j >= |series[k].values| ==> g.data[k] == Some(0.0))
  {
    var g := Transpose(yAxis, series, kind, showLabels)[j];
    assert g.data == Column(series, j);
  }
}
