/**
 * The line chart's options (charts/useLineChartOptions.ts): the bar chart's
 * layout without the data-zoom component and without re-sorting the y
 * groups; every line is drawn with circle symbols of size 7.
 */
module LineChartOptions {
  import opened Wrappers
  import opened SeqUtil
  import opened ChartTypes
  import opened ChartConfig
  import opened Cartesian
  import BarChartOptions
  import Colors

  const Symbol: string := "circle"
  const SymbolSize: nat := 7

  const LineKind: SeriesKind := Line(Symbol, SymbolSize)

  /** The computed parts of the line chart's option object. */
  datatype LineOptions = LineOptions(gridTop: int, tooltip: Tooltip, legend: Legend, axis: AxisConfig, series: seq<ChartSeries>)

  /** The plotted lines: one line of first values, or one line per y label when there is a y axis. */
  function PlottedSeries(chart: ChartData, sort: Sort, showLabels: bool): seq<ChartSeries> {
    var sorted := Sorted(chart, sort);
    if !sorted.hasYAxis then [ChartSeries(chart.title, LineKind, FirstValues(sorted.series), showLabels, chart.title)]
    else Transpose(chart.yAxis, sorted.series, LineKind, showLabels)
  }

  /** The `options` value for a chart, the sort setting, the label flag and the theme. */
  function Options(chart: ChartData, sort: Sort, showLabels: bool, isDark: bool): LineOptions {
    var sorted := Sorted(chart, sort);
    var styling := GetChartStyling(isDark);
    var axis := CreateAxisConfig(styling, sorted.xAxisData);
    var lines := PlottedSeries(chart, sort, showLabels);
    if !sorted.hasYAxis then
      LineOptions(GridTop(1), CreateTooltipConfig(false), Hidden, axis, lines)
    else
      LineOptions(GridTop(|lines|), CreateTooltipConfig(true), CreateLegendConfig(SeriesNames(lines), styling, true), axis, lines)
  }

  /**
   * Without a y axis: one line named after the chart with the first value of
   * every x series, item tooltip, no legend.
   */
  lemma SingleCategoryShape(chart: ChartData, sort: Sort, showLabels: bool, isDark: bool, k: nat)
    requires !Colors.HasYAxis(chart.yAxis) && k < |chart.series|
    ensures var o := Options(chart, sort, showLabels, isDark); var s := Sorted(chart, sort).series;
      && |o.series| == 1
      && o.series[0].name == chart.title && o.series[0].colorKey == chart.title
      && o.series[0].kind == Line(Symbol, 7)
      && |o.series[0].data| == |chart.series|
      && o.series[0].data[k] == (if s[k].values == [] then None else Some(s[k].values[0]))
      && o.tooltip == ItemTrigger && o.legend == Hidden && o.gridTop == 15
  {
  }

  /**
   * With a y axis: one line per y label, in label order, whose k-th point is
   * the k-th x series' value at that label (0 past its end); the tooltip
   * always triggers per axis and the legend always lists the lines.
   */
  lemma DualCategoryShape(chart: ChartData, sort: Sort, showLabels: bool, isDark: bool, j: nat, k: nat)
    requires Colors.HasYAxis(chart.yAxis) && j < |chart.yAxis| && k < |chart.series|
    ensures var o := Options(chart, sort, showLabels, isDark); var s := Sorted(chart, sort).series;
      && |o.series| == |chart.yAxis|
      && o.series[j].name == chart.yAxis[j] && o.series[j].kind == Line(Symbol, 7)
      && |o.series[j].data| == |chart.series|
      && o.series[j].data[k] == Some(ValueAt(s[k].values, j))
      && o.tooltip == AxisTrigger
      && o.legend == Shown(chart.yAxis, GetChartStyling(isDark).textColor)
      && o.gridTop == GridTop(|chart.yAxis|)
  {
    var sorted := Sorted(chart, sort);
    var lines := Transpose(chart.yAxis, sorted.series, LineKind, showLabels);
    TransposeNames(chart.yAxis, sorted.series, LineKind, showLabels);
    assert Options(chart, sort, showLabels, isDark).series == lines;
    assert lines[j] == ChartSeries(chart.yAxis[j], LineKind, Column(sorted.series, j), showLabels, chart.yAxis[j]);
  }

  /**
   * The line chart plots the same points as the bar chart: with the y groups
   * not re-sorted the two charts have the same series, names and points, in
   * the same order, and only the series' shape differs.
   */
  lemma {:induction false} SameSeriesAsBars(chart: ChartData, sort: Sort, showLabels: bool)
    requires !(sort.enabled && |chart.series| == 1)
    ensures var lines := PlottedSeries(chart, sort, showLabels);
      var bars := BarChartOptions.PlottedSeries(chart, sort, showLabels);
      && |lines| == |bars|
      && forall i :: 0 <= i < |lines| ==> lines[i] == bars[i].(kind := LineKind)
  {
    var s := Sorted(chart, sort).series;
    if Colors.HasYAxis(chart.yAxis) {
      var lines := Transpose(chart.yAxis, s, LineKind, showLabels);
      var bars := Transpose(chart.yAxis, s, Bar, showLabels);
      assert BarChartOptions.Groups(chart, sort, showLabels) == bars;
      forall i | 0 <= i < |lines| ensures lines[i] == bars[i].(kind := LineKind) {
      }
    }
  }
}
