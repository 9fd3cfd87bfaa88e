/**
 * `formatValue` of charts/baseChartOptions.ts: how a tooltip shows a value,
 * choosing a display unit by thresholds. The text of the number (`toFixed`)
 * is not modelled; the result records the scaled amount, the unit suffix and
 * the number of decimals.
 */
module FormatValue {

  datatype Display =
    | ZeroText                                            // "0"
    | Scaled(amount: real, suffix: string, decimals: nat) // `${amount.toFixed(decimals)} ${suffix}`
    | PlainNumber(value: real)                            // value.toString()

  const Micro: string := "\U{03BC}s"

  /** The size, in the base unit, of a display suffix. */
  function SuffixSize(suffix: string): (d: real)
    ensures d >= 1.0
  {
    match suffix
    case "ms" => 1000000.0
    case "\U{03BC}s" => 1000.0
    case "GB" => 1073741824.0
    case "MB" => 1048576.0
    case "KB" => 1024.0
    case _ => 1.0
  }

  function Format(value: real, unit: string): (r: Display)
    ensures value == 0.0 <==> r.ZeroText?
    ensures r.PlainNumber? <==> value != 0.0 && unit != "ns" && unit != "b"
    ensures r.PlainNumber? ==> r.value == value
    ensures r.Scaled? ==> r.amount * SuffixSize(r.suffix) == value
    ensures r.Scaled? && unit == "ns" ==> r.suffix in {"ms", Micro, "ns"}
    ensures r.Scaled? && unit == "b" ==> r.suffix in {"GB", "MB", "KB", "B"}
  {
    if value == 0.0 then ZeroText
    else if unit == "ns" then
      if value >= 1000000.0 then Scaled(value / 1000000.0, "ms", 2)
      else if value >= 1000.0 then Scaled(value / 1000.0, Micro, 2)
      else Scaled(value, "ns", 0)
    else if unit == "b" then
      if value >= 1073741824.0 then Scaled(value / 1073741824.0, "GB", 2)
      else if value >= 1048576.0 then Scaled(value / 1048576.0, "MB", 2)
      else if value >= 1024.0 then Scaled(value / 1024.0, "KB", 2)
      else Scaled(value, "B", 0)
    else PlainNumber(value)
  }

  /**
   * For a positive value the chosen unit is the largest that still shows at
   * least one whole unit: the amount is at least 1 unless the base unit was
   * kept, and below the next step (1000 for time, 1024 for bytes) unless the
   * largest unit was reached. Base units are shown without decimals.
   */
  lemma {:induction false} FormatChoosesLargestUnit(value: real, unit: string)
    requires value > 0.0 && (unit == "ns" || unit == "b")
    ensures var r := Format(value, unit);
      && r.Scaled?
      && (r.amount >= 1.0 || r.suffix == "ns" || r.suffix == "B")
      && (unit == "ns" && r.suffix != "ms" ==> r.amount < 1000.0)
      && (unit == "b" && r.suffix != "GB" ==> r.amount < 1024.0)
      && (r.decimals == 0 <==> r.suffix == "ns" || r.suffix == "B")
  {
    var r := Format(value, unit);
    if unit == "b" && r.suffix == "MB" {
      assert value < 1073741824.0;
      assert r.amount * 1048576.0 == value;
    } else if unit == "b" && r.suffix == "KB" {
      assert r.amount * 1024.0 == value;
    } else if unit == "ns" && r.suffix == Micro {
      assert r.amount * 1000.0 == value;
    }
  }
}
