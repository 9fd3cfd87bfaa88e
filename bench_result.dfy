/**
 * The text-format parser of pkg/parser/bench_result.go: each benchmark line
 * becomes a result holding a name, a workload and a subject taken from the
 * benchmark's path parts, and one statistic per value, converted to the
 * units the flags ask for.
 */
module BenchResult {
  import opened Wrappers
  import opened Text
  import opened Formatter
  import opened SeqUtil
  import opened BenchRecords

  /** `shared.BenchmarkResult`. */
  datatype BenchmarkResult = BenchmarkResult(name: string, workload: string, subject: string, stats: seq<Stat>)

  /** The path parts the name-parsing loop keeps: every part but the CPU suffix, each without its leading "/". */
  function KeptParts(parts: seq<string>): (kept: seq<string>)
    ensures |kept| <= |parts|
  {
    if parts == [] then []
    else
      var last := parts[|parts| - 1];
      KeptParts(parts[..|parts| - 1]) + (if IsCpuPart(last) then [] else [TrimPrefix(last, "/")])
  }

  /** `parseBenchmarkName`: the base, the path parts and the CPU suffix of a benchmark name. */
  method ParseBenchmarkName(name: BenchLine) returns (base: string, parts: seq<string>, cpu: string)
    ensures base == name.base && parts == KeptParts(name.parts) && cpu == CpuOf(name.parts)
  {
    base := name.base;
    parts, cpu := [], "";
    var ps := name.parts;
    for i := 0 to |ps|
      invariant parts == KeptParts(ps[..i]) && cpu == CpuOf(ps[..i])
    {
      TakeSnoc(ps, i);
      assert ps[..i + 1][..i] == ps[..i];
      var part := ps[i];
      if StartsWith(part, "-") {
        cpu := TrimPrefix(part, "-");
      } else {
        parts := parts + [TrimPrefix(part, "/")];
      }
    }
    assert ps[..|ps|] == ps;
  }

  /** The "/"-prefixed parts benchfmt produces for the given path segments. */
  function Slashed(segments: seq<string>): (parts: seq<string>)
    ensures |parts| == |segments|
    ensures forall i :: 0 <= i < |parts| ==> parts[i] == "/" + segments[i]
  {
    if segments == [] then [] else Slashed(segments[..|segments| - 1]) + ["/" + segments[|segments| - 1]]
  }

  /**
   * Name parsing gives the path segments back, in order, whatever CPU
   * suffixes stand among them, and the CPU suffix is the last one.
   */
  lemma {:induction false} KeptPartsOfPath(segments: seq<string>, cpu: string)
    ensures KeptParts(Slashed(segments)) == segments
    ensures KeptParts(Slashed(segments) + ["-" + cpu]) == segments
    ensures CpuOf(Slashed(segments) + ["-" + cpu]) == cpu
    decreases |segments|
  {
    if segments != [] {
      var n := |segments| - 1;
      KeptPartsOfPath(segments[..n], cpu);
      var p := Slashed(segments);
      assert p[..n] == Slashed(segments[..n]);
      assert !IsCpuPart(p[n]);
      assert TrimPrefix(p[n], "/") == segments[n];
      assert segments[..n] + [segments[n]] == segments;
    }
    var q := Slashed(segments) + ["-" + cpu];
    assert q[..|q| - 1] == Slashed(segments);
    assert StartsWith(q[|q| - 1], "-");
  }

  /** Name, workload and subject of a result. */
  datatype NameGroups = NameGroups(name: string, workload: string, subject: string)

  /**
   * `parseBenchGroupsFromName`: with no path part the base is the subject;
   * with one, the base is the name and the part the subject; with more, the
   * last two parts are the workload and the subject.
   */
  function GroupsFromName(base: string, parts: seq<string>): (g: NameGroups)
    ensures parts == [] ==> g.name == "" && g.subject == base
    ensures parts != [] ==> g.name == base && g.subject == parts[|parts| - 1]
    ensures |parts| >= 2 ==> g.workload == parts[|parts| - 2]
    ensures |parts| < 2 ==> g.workload == ""
  {
    match |parts|
    case 0 => NameGroups("", "", base)
    case 1 => NameGroups(base, "", parts[0])
    case _ => NameGroups(base, parts[|parts| - 2], parts[|parts| - 1])
  }

  /**
   * For a name "base/seg1/.../segN-cpu", the result's subject is the last
   * segment and its workload the one before; the CPU suffix plays no part.
   */
  lemma GroupsOfPath(base: string, segments: seq<string>, cpu: string)
    ensures var g := GroupsFromName(base, KeptParts(Slashed(segments) + ["-" + cpu]));
      && g == GroupsFromName(base, KeptParts(Slashed(segments)))
      && (segments == [] ==> g == NameGroups("", "", base))
      && (|segments| == 1 ==> g == NameGroups(base, "", segments[0]))
      && (|segments| >= 2 ==> g == NameGroups(base, segments[|segments| - 2], segments[|segments| - 1]))
  {
    KeptPartsOfPath(segments, cpu);
  }

  /** The statistic of one value: time, memory and allocation counts converted to the flag units; any other unit gives the zero statistic. */
  function StatFor(v: BenchValue, flags: Flags): (s: Stat)
    ensures v.unit == "sec/op" ==>
      s.statType == "Execution Time" && s.unit == flags.timeUnit && s.value * TimeUnitSize(flags.timeUnit) == v.origValue
    ensures v.unit == "B/op" ==>
      s.statType == "Memory Usage" && s.unit == flags.memUnit && s.value * MemUnitSize(flags.memUnit) == v.value
    ensures v.unit == "allocs/op" ==>
      s.statType == "Allocations" && s.unit == flags.allocUnit && s.value * CountUnitSize(flags.allocUnit) == v.value
    ensures s.statType == "" <==> v.unit !in {"sec/op", "B/op", "allocs/op"}
    ensures s.statType == "" ==> s == ZeroStat
  {
    match v.unit
    case "sec/op" => Stat("Execution Time", FormatTime(v.origValue, flags.timeUnit), flags.timeUnit)
    case "B/op" => Stat("Memory Usage", FormatMem(v.value, flags.memUnit), flags.memUnit)
    case "allocs/op" => Stat("Allocations", FormatAllocs(v.value, flags.allocUnit), flags.allocUnit)
    case _ => ZeroStat
  }

  /** One statistic per value, in order. */
  function StatsFor(values: seq<BenchValue>, flags: Flags): (stats: seq<Stat>)
    ensures |stats| == |values|
    ensures forall i :: 0 <= i < |values| ==> stats[i] == StatFor(values[i], flags)
  {
    if values == [] then [] else StatsFor(values[..|values| - 1], flags) + [StatFor(values[|values| - 1], flags)]
  }

  predicate HasMemValue(values: seq<BenchValue>) {
    exists i :: 0 <= i < |values| && values[i].unit == "B/op"
  }

  /** The value loop of `ParseBenchmarkResults`: the statistics of one line, noting a memory statistic in the globals. */
  method ValueStats(values: seq<BenchValue>, flags: Flags, g: Globals) returns (stats: seq<Stat>)
    modifies g
    ensures stats == StatsFor(values, flags)
    ensures g.hasMemStats == (old(g.hasMemStats) || HasMemValue(values))
    ensures g.cpuCount == old(g.cpuCount)
  {
    stats := [];
    for i := 0 to |values|
      invariant stats == StatsFor(values[..i], flags)
      invariant g.hasMemStats == (old(g.hasMemStats) || HasMemValue(values[..i]))
      invariant g.cpuCount == old(g.cpuCount)
    {
      TakeSnoc(values, i);
      assert values[..i + 1][..i] == values[..i];
      var v := values[i];
      if v.unit == "B/op" {
        g.MarkMemStats();
      }
      assert HasMemValue(values[..i + 1]) <==> HasMemValue(values[..i]) || v.unit == "B/op" by {
        assert values[..i + 1][i] == v;
        assert forall j :: 0 <= j < i ==> values[..i + 1][j] == values[..i][j];
      }
      stats := stats + [StatFor(v, flags)];
    }
    assert values[..|values|] == values;
  }

  /** The result of one line. */
  function ResultOf(line: BenchLine, flags: Flags): BenchmarkResult {
    var g := GroupsFromName(line.base, KeptParts(line.parts));
    BenchmarkResult(g.name, g.workload, g.subject, StatsFor(line.values, flags))
  }

  /** The results of a stream of records; a record that is not a benchmark line (None) is skipped. */
  function Results(records: seq<Option<BenchLine>>, flags: Flags): (results: seq<BenchmarkResult>)
    ensures |results| <= |records|
  {
    if records == [] then []
    else
      var last := records[|records| - 1];
      Results(records[..|records| - 1], flags) + (if last.Some? then [ResultOf(last.value, flags)] else [])
  }

  /** The CPU suffixes of the benchmark lines of a stream, in order. */
  function Cpus(records: seq<Option<BenchLine>>): (cpus: seq<string>)
    ensures |cpus| <= |records|
  {
    if records == [] then []
    else
      var last := records[|records| - 1];
      Cpus(records[..|records| - 1]) + (if last.Some? then [CpuOf(last.value.parts)] else [])
  }

  predicate HasMemLine(records: seq<Option<BenchLine>>) {
    exists k :: 0 <= k < |records| && records[k].Some? && HasMemValue(records[k].value.values)
  }

  /**
   * `ParseBenchmarkResults` after the file is opened: one result per
   * benchmark line, the CPU count stored from the name suffixes, and the
   * memory flag set if any line reports bytes per operation.
   */
  method ParseBenchmarkResults(records: seq<Option<BenchLine>>, flags: Flags, g: Globals) returns (results: seq<BenchmarkResult>)
    modifies g
    ensures results == Results(records, flags)
    ensures g.cpuCount == CpuAfter(old(g.cpuCount), Cpus(records))
    ensures g.hasMemStats == (old(g.hasMemStats) || HasMemLine(records))
  {
    results := [];
    for k := 0 to |records|
      invariant results == Results(records[..k], flags)
      invariant g.cpuCount == CpuAfter(old(g.cpuCount), Cpus(records[..k]))
      invariant g.hasMemStats == (old(g.hasMemStats) || HasMemLine(records[..k]))
    {
      RecordStep(records, k, flags, old(g.cpuCount));
      if records[k].Some? {
        var result := ParseRecord(records[k].value, flags, g);
        results := results + [result];
      }
    }
    assert records[..|records|] == records;
  }

  /** The body of the record loop for one benchmark line. */
  method ParseRecord(line: BenchLine, flags: Flags, g: Globals) returns (result: BenchmarkResult)
    modifies g
    ensures result == ResultOf(line, flags)
    ensures g.cpuCount == StoredCpu(old(g.cpuCount), CpuOf(line.parts))
    ensures g.hasMemStats == (old(g.hasMemStats) || HasMemValue(line.values))
  {
    var base, parts, cpu := ParseBenchmarkName(line);
    var groups := GroupsFromName(base, parts);
    g.StoreCpuCount(cpu);
    var stats := ValueStats(line.values, flags, g);
    result := BenchmarkResult(groups.name, groups.workload, groups.subject, stats);
  }

  /** One turn of the record loop, in terms of the specification functions. */
  lemma RecordStep(records: seq<Option<BenchLine>>, k: nat, flags: Flags, count: int)
    requires k < |records|
    ensures var r := records[k]; var before := records[..k];
      && Results(records[..k + 1], flags) == Results(before, flags) + (if r.Some? then [ResultOf(r.value, flags)] else [])
      && CpuAfter(count, Cpus(records[..k + 1])) ==
           (if r.Some? then StoredCpu(CpuAfter(count, Cpus(before)), CpuOf(r.value.parts)) else CpuAfter(count, Cpus(before)))
      && (HasMemLine(records[..k + 1]) <==> HasMemLine(before) || (r.Some? && HasMemValue(r.value.values)))
  {
    var prefix := records[..k + 1];
    assert prefix[..k] == records[..k];
    assert prefix[k] == records[k];
    assert forall j :: 0 <= j < k ==> prefix[j] == records[..k][j];
    var cpus := Cpus(records[..k]);
    if records[k].Some? {
      var c := CpuOf(records[k].value.parts);
      assert Cpus(prefix) == cpus + [c];
      assert (cpus + [c])[..|cpus|] == cpus;
    } else {
      assert Cpus(prefix) == cpus;
    }
  }

  /**
   * Records are handled one by one: the results of a stream are the results
   * of its first half followed by those of its second half, so each line
   * gives exactly one result, in input order.
   */
  lemma {:induction false} ResultsAppend(a: seq<Option<BenchLine>>, b: seq<Option<BenchLine>>, flags: Flags)
    ensures Results(a + b, flags) == Results(a, flags) + Results(b, flags)
    decreases |b|
  {
    if b == [] {
      assert a + b == a;
    } else {
      var n := |b| - 1;
      assert (a + b)[..|a + b| - 1] == a + b[..n];
      ResultsAppend(a, b[..n], flags);
    }
  }

  /** A single benchmark line gives its own result; any other record gives none. */
  lemma SingleRecord(r: Option<BenchLine>, flags: Flags)
    ensures Results([r], flags) == if r.Some? then [ResultOf(r.value, flags)] else []
  {
    assert [r][..0] == [];
  }
}
