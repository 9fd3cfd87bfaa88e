/**
 * The shared option pieces of charts/shared/chartConfig.ts: theme colours,
 * the category/value axis pair, the tooltip trigger, the legend and the grid.
 * Formatter callbacks (HTML strings) are not modelled.
 */
module ChartConfig {

  datatype Styling = Styling(textColor: string, axisColor: string, opacity: real)

  /** The theme colours: text and axis lines, for dark and for light mode. */
  const DarkText := "#e5e7eb"
  const DarkAxis := "#4b5563"
  const LightText := "#374151"
  const LightAxis := "#d1d5db"

  /** `getChartStyling(isDark)`. */
  function GetChartStyling(isDark: bool): (s: Styling)
    ensures isDark ==> s == Styling(DarkText, DarkAxis, 0.2)
    ensures !isDark ==> s == Styling(LightText, LightAxis, 0.8)
  {
    if isDark then Styling(DarkText, DarkAxis, 0.2) else Styling(LightText, LightAxis, 0.8)
  }

  /**
   * The x axis is a category axis over `categories`, its labels all shown
   * (interval 0, font size 10), rotated by `rotate` degrees; the y axis is a
   * value axis whose split lines use the styling's opacity.
   */
  datatype AxisConfig = AxisConfig(categories: seq<string>, rotate: int, textColor: string, axisColor: string, splitLineOpacity: real)

  /** `createAxisConfig(styling, xAxisData)`: labels are rotated once there are more than 15 categories. */
  function CreateAxisConfig(styling: Styling, xAxisData: seq<string>): (a: AxisConfig)
    ensures a.categories == xAxisData
    ensures a.rotate == 30 <==> |xAxisData| > 15
    ensures a.rotate == 0 <==> |xAxisData| <= 15
    ensures a.textColor == styling.textColor && a.axisColor == styling.axisColor && a.splitLineOpacity == styling.opacity
  {
    AxisConfig(xAxisData, if |xAxisData| > 15 then 30 else 0, styling.textColor, styling.axisColor, styling.opacity)
  }

  /** The tooltip's trigger: per axis (with a shadow pointer) or per item. */
  datatype Tooltip = AxisTrigger | ItemTrigger

  /** `createTooltipConfig(hasXYAxis)`. */
  function CreateTooltipConfig(hasXYAxis: bool): (t: Tooltip)
    ensures t.AxisTrigger? <==> hasXYAxis
  {
    if hasXYAxis then AxisTrigger else ItemTrigger
  }

  /** A legend: hidden, or shown centred with 10x10 markers, 12pt text and the listed entries. */
  datatype Legend = Hidden | Shown(entries: seq<string>, textColor: string)

  /** `createLegendConfig(series, styling, hasMultipleSeries)`, given the series' names. */
  function CreateLegendConfig(names: seq<string>, styling: Styling, hasMultipleSeries: bool): (l: Legend)
    ensures l.Shown? <==> hasMultipleSeries
    ensures l.Shown? ==> l.entries == names && l.textColor == styling.textColor
  {
    if !hasMultipleSeries then Hidden else Shown(names, styling.textColor)
  }

  /** JavaScript's Math.floor(n / 15) for an integer n (Dafny's division on int is floor division for a positive divisor). */
  function FloorDiv15(n: int): (q: int)
    ensures 15 * q <= n < 15 * q + 15
  {
    n / 15
  }

  /**
   * `createGridConfig(seriesLength)`'s top margin in percent: 15, plus 2 for
   * every full 15 series beyond the first, capped at 35. The other margins
   * are fixed (left and right 3%, bottom 10%, labels contained).
   */
  function GridTop(seriesLength: int): (top: int)
    ensures top <= 35
    ensures seriesLength >= 1 ==> top >= 15
    ensures 1 <= seriesLength <= 15 ==> top == 15
    ensures seriesLength >= 151 ==> top == 35
  {
    var legendSpace := 15 + FloorDiv15(seriesLength - 1) * 2;
    if legendSpace < 35 then legendSpace else 35
  }

  /** More series never shrink the room left for the legend. */
  lemma {:induction false} GridTopMonotone(m: int, n: int)
    requires m <= n
    ensures GridTop(m) <= GridTop(n)
  {
    assert FloorDiv15(m - 1) <= FloorDiv15(n - 1);
  }

  /** An empty chart gets a top margin of 13%, below the one-series default. */
  lemma GridTopOfNoSeries()
    ensures GridTop(0) == 13
  {
  }
}
