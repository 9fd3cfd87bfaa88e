/**
 * The UI's data model (types/benchmark.ts and types/index.ts): statistics,
 * benchmark records, the chart-ready ChartData, and the user's settings.
 */
module ChartTypes {
  import opened Wrappers

  /**
   * One statistic of a record. `value`, `unit` and `per` are optional fields in
   * the source; an absent one is None.
   */
  datatype Stat = Stat(statType: string, value: Option<real>, unit: Option<string>, per: Option<string>)

  /** One measured data point: its group name, its two category labels and its statistics. */
  datatype BenchmarkData = BenchmarkData(name: string, xAxis: string, yAxis: string, stats: seq<Stat>)

  /** One plotted x category: its values aligned to the ChartData's yAxis domain. */
  datatype SeriesData = SeriesData(xAxis: string, values: seq<real>, benchmarkId: string)

  /** Chart-ready data for one statistic signature. */
  datatype ChartData = ChartData(
    title: string,
    statType: string,
    statUnit: Option<string>,
    yAxis: seq<string>,
    series: seq<SeriesData>)

  /**
   * The sort directive. The order is 'asc' | 'desc' in the types, but any
   * string can reach it at run time (from a URL parameter or a data file).
   */
  datatype Sort = Sort(enabled: bool, order: string)

  /** Per-benchmark settings shipped with the data; `charts` may be missing. */
  datatype Settings = Settings(sort: Sort, showLabels: bool, charts: Option<seq<string>>)

  /** One benchmark of the input file. */
  datatype Benchmark = Benchmark(
    name: string,
    description: string,
    cpuName: string,
    cpuCores: int,
    settings: Option<Settings>,
    data: seq<BenchmarkData>)

  /** A series together with its aggregate, as the option builders sort it (`{...series, total}`). */
  datatype TotalledSeries = TotalledSeries(series: SeriesData, total: real)

  /** One pie slice: a category name, its value and the key its colour was requested for. */
  datatype PieSlice = PieSlice(name: string, value: real, colorKey: string)
}
