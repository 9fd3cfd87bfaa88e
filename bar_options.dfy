/**
 * The bar chart's options (charts/useBarChartOptions.ts). Without a y axis
 * one bar series carries the first value of every x series; with one, each
 * y label becomes a bar series over the x series, and when sorting is on and
 * there is a single x series those bar series are ordered by their value.
 */
module BarChartOptions {
  import opened Wrappers
  import opened SeqUtil
  import opened ChartTypes
  import opened Common
  import opened Sorting
  import opened ChartConfig
  import opened Cartesian
  import Colors

  /**
   * The parts of the option object the builder computes. The base options,
   * the formatters and the data-zoom component's own settings are not
   * modelled; `dataZoomCategories` is the category count the data-zoom
   * component is configured for.
   */
  datatype CartesianOptions = CartesianOptions(
    gridTop: int,
    tooltip: Tooltip,
    legend: Legend,
    axis: AxisConfig,
    dataZoomCategories: Option<nat>,
    series: seq<ChartSeries>)

  /** `a.data[0]?.value || 0`: the key the bar groups are sorted by. */
  function FirstPoint(g: ChartSeries): real {
    if g.data == [] then 0.0 else g.data[0].GetOr(0.0)
  }

  /**
   * The bar series of the dual-category case, in plotting order: the
   * transposed y labels, re-sorted by their first point only when sorting is
   * on and there is exactly one x series.
   */
  function Groups(chart: ChartData, sort: Sort, showLabels: bool): (groups: seq<ChartSeries>)
    ensures var t := Transpose(chart.yAxis, Sorted(chart, sort).series, Bar, showLabels);
      && multiset(groups) == multiset(t)
      && (!(sort.enabled && |chart.series| == 1) ==> groups == t)
      && (sort.enabled && |chart.series| == 1 ==> SortedBy(groups, sort.order, FirstPoint))
    ensures |groups| == |chart.yAxis|
  {
    var t := Transpose(chart.yAxis, Sorted(chart, sort).series, Bar, showLabels);
    SortByPermutation(t, sort.order, FirstPoint);
    SortBySorted(t, sort.order, FirstPoint);
    assert |multiset(t)| == |t|;
    if sort.enabled && |chart.series| == 1 then SortBy(t, sort.order, FirstPoint) else t
  }

  /** The plotted bar series: one series of first values, or the bar groups when there is a y axis. */
  function PlottedSeries(chart: ChartData, sort: Sort, showLabels: bool): seq<ChartSeries> {
    var sorted := Sorted(chart, sort);
    if !sorted.hasYAxis then [ChartSeries(chart.title, Bar, FirstValues(sorted.series), showLabels, chart.title)]
    else Groups(chart, sort, showLabels)
  }

  /** The `options` value for a chart, the sort setting, the label flag and the theme. */
  function Options(chart: ChartData, sort: Sort, showLabels: bool, isDark: bool): CartesianOptions {
    var sorted := Sorted(chart, sort);
    var styling := GetChartStyling(isDark);
    var axis := CreateAxisConfig(styling, sorted.xAxisData);
    var series := PlottedSeries(chart, sort, showLabels);
    if !sorted.hasYAxis then
      CartesianOptions(GridTop(1), CreateTooltipConfig(false), Hidden, axis, Some(|sorted.xAxisData|), series)
    else
      CartesianOptions(
        GridTop(|series|), CreateTooltipConfig(Colors.HasXAxis(chart.series)),
        CreateLegendConfig(SeriesNames(series), styling, |series| > 1), axis, Some(|sorted.xAxisData|),
        series)
  }

  /**
   * Without a y axis: a single bar series named after the chart, one point
   * per x series (its first value, or undefined), item tooltip, no legend,
   * and the categories are the x names in plotting order.
   */
  lemma SingleCategoryShape(chart: ChartData, sort: Sort, showLabels: bool, isDark: bool, k: nat)
    requires !Colors.HasYAxis(chart.yAxis) && k < |chart.series|
    ensures var o := Options(chart, sort, showLabels, isDark); var s := Sorted(chart, sort).series;
      && |o.series| == 1
      && o.series[0].name == chart.title && o.series[0].kind == Bar && o.series[0].colorKey == chart.title
      && |o.series[0].data| == |o.axis.categories| == |chart.series|
      && o.axis.categories[k] == s[k].xAxis
      && o.series[0].data[k] == (if s[k].values == [] then None else Some(s[k].values[0]))
      && o.tooltip == ItemTrigger && o.legend == Hidden && o.gridTop == 15
      && o.dataZoomCategories == Some(|chart.series|)
  {
  }

  /**
   * With a y axis: the plotted series are the transposed y labels (re-sorted
   * or not), each with one point per x series; the legend lists them and is
   * shown exactly when there is more than one; the tooltip triggers per axis
   * exactly when some x label is not blank.
   */
  lemma DualCategoryShape(chart: ChartData, sort: Sort, showLabels: bool, isDark: bool)
    requires Colors.HasYAxis(chart.yAxis)
    ensures var o := Options(chart, sort, showLabels, isDark);
      && multiset(o.series) == multiset(Transpose(chart.yAxis, Sorted(chart, sort).series, Bar, showLabels))
      && (o.legend.Shown? <==> |chart.yAxis| > 1)
      && (o.legend.Shown? ==> o.legend.entries == SeriesNames(o.series))
      && (o.tooltip.AxisTrigger? <==> Colors.HasXAxis(chart.series))
      && o.gridTop == GridTop(|chart.yAxis|)
      && o.dataZoomCategories == Some(|chart.series|)
  {
  }

  /**
   * Nothing is lost in the dual case: every y label has a plotted bar series
   * named after it whose points are the x series' values at that label
   * (0 past the end of a series' values), in x order.
   */
  lemma DualCategoryKeepsEveryValue(chart: ChartData, sort: Sort, showLabels: bool, isDark: bool, j: nat)
    requires Colors.HasYAxis(chart.yAxis) && j < |chart.yAxis|
    ensures var s := Sorted(chart, sort).series;
      ChartSeries(chart.yAxis[j], Bar, Column(s, j), showLabels, chart.yAxis[j]) in Options(chart, sort, showLabels, isDark).series
  {
    var t := Transpose(chart.yAxis, Sorted(chart, sort).series, Bar, showLabels);
    assert t[j] in multiset(t);
  }

  /**
   * With sorting on and a single x series, the bar groups are ordered by
   * their one point with the comparator's rule; otherwise they follow the
   * y labels.
   */
  lemma DualCategoryGroupOrder(chart: ChartData, sort: Sort, showLabels: bool, isDark: bool)
    requires Colors.HasYAxis(chart.yAxis)
    ensures var o := Options(chart, sort, showLabels, isDark);
      && (sort.enabled && |chart.series| == 1 ==> SortedBy(o.series, sort.order, FirstPoint))
      && (!(sort.enabled && |chart.series| == 1) ==> SeriesNames(o.series) == chart.yAxis)
  {
  }
}
