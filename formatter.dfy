/**
 * The unit converters of shared/utils/formatter.go. Values arrive in the
 * benchmark's base unit (nanoseconds, bytes, plain counts) and are scaled to
 * the unit the user chose. Unit names are matched case-sensitively; an
 * unknown unit leaves the value as it is. Arithmetic is exact (reals).
 */
module Formatter {

  /** How many nanoseconds one unit of `unit` holds. */
  function TimeUnitSize(unit: string): (d: real)
    ensures d >= 1.0
  {
    match unit
    case "s" => 1_000_000_000.0
    case "ms" => 1_000_000.0
    case "us" => 1_000.0
    case _ => 1.0
  }

  /** FormatTime: nanoseconds to `unit` ("s", "ms", "us"; anything else is nanoseconds). */
  function FormatTime(n: real, unit: string): (time: real)
    ensures n == 0.0 ==> time == 0.0
    ensures time * TimeUnitSize(unit) == n
  {
    if n == 0.0 then 0.0
    else match unit
      case "s" => n / 1e9
      case "ms" => n / 1e6
      case "us" => n / 1e3
      case _ => n
  }

  /** How many bytes one unit of `unit` holds ("b" is a bit, an eighth of a byte). */
  function MemUnitSize(unit: string): (d: real)
    ensures d > 0.0
  {
    match unit
    case "b" => 0.125
    case "kb" => 1024.0
    case "mb" => 1024.0 * 1024.0
    case "gb" => 1024.0 * 1024.0 * 1024.0
    case _ => 1.0
  }

  /** FormatMem: bytes to `unit` ("b" bits, "kb", "mb", "gb"; anything else is bytes). */
  function FormatMem(n: real, unit: string): (mem: real)
    ensures n == 0.0 ==> mem == 0.0
    ensures mem * MemUnitSize(unit) == n
  {
    if n == 0.0 then 0.0
    else match unit
      case "b" => n * 8.0
      case "kb" => n / 1024.0
      case "mb" => n / (1024.0 * 1024.0)
      case "gb" => n / (1024.0 * 1024.0 * 1024.0)
      case _ => n
  }

  /** How many allocations one unit of `unit` counts. */
  function CountUnitSize(unit: string): (d: real)
    ensures d >= 1.0
  {
    match unit
    case "K" => 1e3
    case "M" => 1e6
    case "B" => 1e9
    case "T" => 1e12
    case _ => 1.0
  }

  /** FormatAllocs: a count to thousands, millions, billions or trillions ("K", "M", "B", "T"). */
  function FormatAllocs(n: real, unit: string): (allocs: real)
    ensures n == 0.0 ==> allocs == 0.0
    ensures allocs * CountUnitSize(unit) == n
  {
    if n == 0.0 then 0.0
    else match unit
      case "K" => n / 1e3
      case "M" => n / 1e6
      case "B" => n / 1e9
      case "T" => n / 1e12
      case _ => n
  }

  /**
   * All three conversions preserve order and sign, so sorting converted values
   * orders the benchmarks as their raw values do.
   */
  lemma {:induction false} FormattersMonotone(a: real, b: real, unit: string)
    requires a <= b
    ensures FormatTime(a, unit) <= FormatTime(b, unit)
    ensures FormatMem(a, unit) <= FormatMem(b, unit)
    ensures FormatAllocs(a, unit) <= FormatAllocs(b, unit)
    ensures (FormatTime(a, unit) < 0.0 <==> a < 0.0) && (FormatMem(a, unit) < 0.0 <==> a < 0.0)
    ensures FormatAllocs(a, unit) < 0.0 <==> a < 0.0
  {
    ScaledMonotone(FormatTime(a, unit), FormatTime(b, unit), TimeUnitSize(unit));
    ScaledMonotone(FormatMem(a, unit), FormatMem(b, unit), MemUnitSize(unit));
    ScaledMonotone(FormatAllocs(a, unit), FormatAllocs(b, unit), CountUnitSize(unit));
  }

  lemma ScaledMonotone(x: real, y: real, d: real)
    requires d > 0.0 && x * d <= y * d
    ensures x <= y && (x < 0.0 <==> x * d < 0.0)
  {
    if x < 0.0 {
      assert x * d < 0.0 * d;
    } else {
      assert x * d >= 0.0 * d;
    }
  }

  /** Unit names are case-sensitive: the upper-case spellings fall through to the identity. */
  lemma UnitsAreCaseSensitive(n: real)
    ensures FormatMem(n, "KB") == n && FormatMem(n, "MB") == n && FormatMem(n, "GB") == n
    ensures FormatTime(n, "MS") == n && FormatAllocs(n, "k") == n
  {
  }
}
