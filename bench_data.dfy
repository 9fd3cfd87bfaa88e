/**
 * The parser of pkg/parser/bench_data.go that feeds the charts: each
 * benchmark line that passes the filter becomes a record whose name and
 * axes come from the grouping pattern (or regex), with one statistic per
 * value classified by its unit; when the lines were run with different
 * iteration counts, every record also gets an "Iterations" statistic.
 */
module BenchData {
  import opened Wrappers
  import opened Text
  import opened SeqUtil
  import opened Formatter
  import opened StatType
  import opened BenchRecords
  import BenchResult
  import ParsePattern

  /** `shared.BenchmarkData`. */
  datatype BenchmarkData = BenchmarkData(name: string, xAxis: string, yAxis: string, stats: seq<Stat>)

  // ---------------------------------------------------------------------------
  // The benchmark name

  /** The name the loop builds: the base followed by every part but the CPU suffix, each kept whole. */
  function JoinedName(base: string, parts: seq<string>): string {
    if parts == [] then base
    else
      var last := parts[|parts| - 1];
      JoinedName(base, parts[..|parts| - 1]) + (if IsCpuPart(last) then "" else last)
  }

  /** `parseBenchmarkName`: the benchmark name without its CPU suffix, and that suffix. */
  method ParseBenchmarkName(name: BenchLine) returns (benchName: string, cpu: string)
    ensures benchName == JoinedName(name.base, name.parts) && cpu == CpuOf(name.parts)
  {
    benchName, cpu := name.base, "";
    var ps := name.parts;
    for i := 0 to |ps|
      invariant benchName == JoinedName(name.base, ps[..i]) && cpu == CpuOf(ps[..i])
    {
      TakeSnoc(ps, i);
      assert ps[..i + 1][..i] == ps[..i];
      var part := ps[i];
      if StartsWith(part, "-") {
        cpu := TrimPrefix(part, "-");
      } else {
        benchName := benchName + part;
      }
    }
    assert ps[..|ps|] == ps;
  }

  /** The path "/s1/s2/..." of a sequence of segments. */
  function PathOf(segments: seq<string>): string {
    if segments == [] then "" else PathOf(segments[..|segments| - 1]) + "/" + segments[|segments| - 1]
  }

  /**
   * The two parsers read a name alike: when every path part starts with "/",
   * as benchfmt produces them, the name this parser builds is the base
   * followed by the path of the segments the text-format parser keeps.
   */
  lemma {:induction false} JoinedNameKeepsPath(base: string, parts: seq<string>)
    requires forall i :: 0 <= i < |parts| && !IsCpuPart(parts[i]) ==> StartsWith(parts[i], "/")
    ensures JoinedName(base, parts) == base + PathOf(BenchResult.KeptParts(parts))
    decreases |parts|
  {
    if parts != [] {
      var n := |parts| - 1;
      var last := parts[n];
      JoinedNameKeepsPath(base, parts[..n]);
      var kept := BenchResult.KeptParts(parts[..n]);
      var front := JoinedName(base, parts[..n]);
      if !IsCpuPart(last) {
        var seg := TrimPrefix(last, "/");
        assert "/" + seg == last;
        assert BenchResult.KeptParts(parts) == kept + [seg];
        assert JoinedName(base, parts) == front + last;
        assert (kept + [seg])[..|kept|] == kept;
        assert PathOf(kept + [seg]) == PathOf(kept) + "/" + seg;
        assert front + last == base + PathOf(kept) + "/" + seg;
      } else {
        assert BenchResult.KeptParts(parts) == kept;
        assert JoinedName(base, parts) == front;
      }
    }
  }

  // ---------------------------------------------------------------------------
  // Filtering and grouping

  /**
   * `shouldIncludeBenchmark`: with no filter every benchmark is included;
   * otherwise the filter regex decides, through `matches`.
   */
  function ShouldInclude(name: string, filterRegex: string, matches: string -> bool): (r: bool)
    ensures filterRegex == "" ==> r
    ensures filterRegex != "" ==> (r <==> matches(name))
  {
    filterRegex == "" || matches(name)
  }

  /** The groups of a name: from the group regex when one is set (through `regexGroups`), else from the pattern. */
  function GroupsOf(name: string, flags: Flags, regexGroups: string -> Result<map<string, string>, string>): (r: Result<map<string, string>, string>)
    ensures flags.groupRegex == "" ==> r == ParsePattern.ParseBenchmarkNameToGroups(name, flags.groupPattern)
    ensures flags.groupRegex != "" ==> r == regexGroups(name)
  {
    if flags.groupRegex != "" then regexGroups(name) else ParsePattern.ParseBenchmarkNameToGroups(name, flags.groupPattern)
  }

  /** A Go map lookup: the value under `key`, or "" when it is absent. */
  function Lookup(m: map<string, string>, key: string): (v: string)
    ensures key in m ==> v == m[key]
    ensures key !in m ==> v == ""
  {
    if key in m then m[key] else ""
  }

  /** Neither axis key passes the pattern's part test as written, so no pattern piece can be one. */
  lemma AxesFailPartTest()
    ensures !ParsePattern.ValidPartAsWritten("xAxis") && !ParsePattern.ValidPartAsWritten("yAxis")
  {
    var x, y := "xAxis", "yAxis";
    assert x[0] == 'x' && x[1] == 'A' && x[2] == 'x' && x[3] == 'i' && x[4] == 's';
    assert y[0] == 'y' && y[1] == 'A' && y[2] == 'x' && y[3] == 'i' && y[4] == 's';
    assert !Text.OccursAt(x, "name", 0) && !Text.OccursAt(x, "name", 1);
    assert !Text.OccursAt(y, "name", 0) && !Text.OccursAt(y, "name", 1);
  }

  /**
   * The pattern parser fills "name", "workload", "subject" and the pieces of
   * the pattern, while this parser reads the axes from "xAxis" and "yAxis",
   * which no piece can be: grouped by a pattern, a record's axes are always
   * empty.
   */
  lemma PatternGroupsLeaveAxesEmpty(name: string, pattern: string)
    requires ParsePattern.ParseBenchmarkNameToGroups(name, pattern).Ok?
    ensures var m := ParsePattern.ParseBenchmarkNameToGroups(name, pattern).value;
      Lookup(m, "xAxis") == "" && Lookup(m, "yAxis") == ""
  {
    var keys := ParsePattern.PatternParts(pattern);
    ParsePattern.AcceptedGroupKeys(name, pattern);
    AxesFailPartTest();
    assert "xAxis" !in ParsePattern.EmptyGroups && "yAxis" !in ParsePattern.EmptyGroups;
    if "xAxis" in keys {
      ParsePattern.AcceptedPatternKey(pattern, "xAxis");
    }
    if "yAxis" in keys {
      ParsePattern.AcceptedPatternKey(pattern, "yAxis");
    }
  }

  // ---------------------------------------------------------------------------
  // Classifying values

  function IterationsStat(iters: int, flags: Flags): Stat {
    Stat(CreateStatType("Iterations", flags.numberUnit, ""), FormatAllocs(iters as real, flags.numberUnit), "")
  }

  /** The label of a unit the switch does not know: a rate per second is a throughput, anything else a metric. */
  function CustomKind(unit: string): string {
    if EndsWith(unit, "/s") then "Throughput" else "Metric"
  }

  predicate IsByteRate(unit: string) {
    unit == "B/s" || unit == "MB/s" || unit == "GB/s"
  }

  predicate IsPerOp(unit: string) {
    unit == "sec/op" || unit == "B/op" || unit == "allocs/op"
  }

  /**
   * The classification switch: time, memory and allocations per operation
   * are converted to the flag units; byte rates are throughputs in the unit
   * benchfmt printed, falling back to the base unit when benchfmt did not
   * fill that in; anything else keeps its value under a label naming its unit.
   */
  function Classify(v: BenchValue, flags: Flags): (s: Stat)
    ensures s.unit == ""
    ensures v.unit == "sec/op" ==>
      s.statType == CreateStatType("Execution Time", flags.timeUnit, "op") && s.value * TimeUnitSize(flags.timeUnit) == v.origValue
    ensures v.unit == "B/op" ==>
      s.statType == CreateStatType("Memory Usage", flags.memUnit, "op") && s.value * MemUnitSize(flags.memUnit) == v.value
    ensures v.unit == "allocs/op" ==>
      s.statType == CreateStatType("Allocations", flags.numberUnit, "op") && s.value * CountUnitSize(flags.numberUnit) == v.value
    ensures IsByteRate(v.unit) && (v.origValue == 0.0 || v.origUnit == "") ==>
      s.statType == CreateStatType("Throughput", v.unit, "") && s.value == v.value
    ensures IsByteRate(v.unit) && v.origValue != 0.0 && v.origUnit != "" ==>
      s.statType == CreateStatType("Throughput", v.origUnit, "") && s.value == v.origValue
    ensures !IsPerOp(v.unit) && !IsByteRate(v.unit) ==>
      s.statType == CreateStatType(CustomKind(v.unit), v.unit, "") && s.value == v.value
  {
    match v.unit
    case "sec/op" => Stat(CreateStatType("Execution Time", flags.timeUnit, "op"), FormatTime(v.origValue, flags.timeUnit), "")
    case "B/op" => Stat(CreateStatType("Memory Usage", flags.memUnit, "op"), FormatMem(v.value, flags.memUnit), "")
    case "allocs/op" => Stat(CreateStatType("Allocations", flags.numberUnit, "op"), FormatAllocs(v.value, flags.numberUnit), "")
    case "B/s" => ByteRate(v)
    case "MB/s" => ByteRate(v)
    case "GB/s" => ByteRate(v)
    case _ => Stat(CreateStatType(CustomKind(v.unit), v.unit, ""), v.value, "")
  }

  function ByteRate(v: BenchValue): Stat {
    var (value, unit) := if v.origValue == 0.0 || v.origUnit == "" then (v.value, v.unit) else (v.origValue, v.origUnit);
    Stat(CreateStatType("Throughput", unit, ""), value, "")
  }

  /**
   * Values of units the switch does not know never share a label unless
   * their units are the same, so they never share a chart; and a byte rate
   * and a per-second unit the switch does not know never do either.
   */
  lemma DefaultUnitsKeptApart(v1: BenchValue, v2: BenchValue, flags: Flags)
    requires v1.unit != "" && v2.unit != ""
    requires !IsPerOp(v1.unit) && !IsByteRate(v1.unit) && !IsPerOp(v2.unit) && !IsByteRate(v2.unit)
    ensures Classify(v1, flags).statType == Classify(v2, flags).statType <==> v1.unit == v2.unit
  {
    var k1, k2 := CustomKind(v1.unit), CustomKind(v2.unit);
    if k1 == k2 {
      CreateStatTypeSeparatesUnits(k1, v1.unit, v2.unit, "");
    } else {
      var t1, t2 := Classify(v1, flags).statType, Classify(v2, flags).statType;
      assert t1[0] == k1[0] && t2[0] == k2[0];
    }
  }

  /** One statistic per value, in order. */
  function ClassifyAll(values: seq<BenchValue>, flags: Flags): (stats: seq<Stat>)
    ensures |stats| == |values|
    ensures forall i :: 0 <= i < |values| ==> stats[i] == Classify(values[i], flags)
  {
    if values == [] then [] else ClassifyAll(values[..|values| - 1], flags) + [Classify(values[|values| - 1], flags)]
  }

  /** The value loop: the statistics of one line. */
  method ValueStats(values: seq<BenchValue>, flags: Flags) returns (stats: seq<Stat>)
    ensures stats == ClassifyAll(values, flags)
  {
    stats := [];
    for i := 0 to |values|
      invariant stats == ClassifyAll(values[..i], flags)
    {
      TakeSnoc(values, i);
      assert values[..i + 1][..i] == values[..i];
      stats := stats + [Classify(values[i], flags)];
    }
    assert values[..|values|] == values;
  }

  // ---------------------------------------------------------------------------
  // The record loop

  /** What the record loop has gathered: records, their iteration counts, the CPU suffixes stored, and the error that stopped it. */
  datatype Collected = Collected(data: seq<BenchmarkData>, iters: seq<int>, cpus: seq<string>, error: Option<string>)

  /** The record of an included line whose groups are `m`. */
  function RecordOf(line: BenchLine, m: map<string, string>, flags: Flags): BenchmarkData {
    BenchmarkData(Lookup(m, "name"), Lookup(m, "xAxis"), Lookup(m, "yAxis"), ClassifyAll(line.values, flags))
  }

  /** One turn of the record loop; once a grouping error has stopped the loop nothing more happens. */
  function Gather(c: Collected, r: Option<BenchLine>, flags: Flags, matches: string -> bool,
                  regexGroups: string -> Result<map<string, string>, string>): Collected {
    if c.error.Some? || r.None? then c
    else
      var line := r.value;
      var name := JoinedName(line.base, line.parts);
      if !ShouldInclude(name, flags.filterRegex, matches) then c
      else match GroupsOf(name, flags, regexGroups)
        case Err(e) => c.(error := Some(e))
        case Ok(m) =>
          Collected(c.data + [RecordOf(line, m, flags)], c.iters + [line.iters], c.cpus + [CpuOf(line.parts)], None)
  }

  /** The record loop over a stream of records, from state `c`. */
  function CollectFrom(c: Collected, records: seq<Option<BenchLine>>, flags: Flags, matches: string -> bool,
                       regexGroups: string -> Result<map<string, string>, string>): Collected {
    if records == [] then c
    else Gather(CollectFrom(c, records[..|records| - 1], flags, matches, regexGroups), records[|records| - 1], flags, matches, regexGroups)
  }

  const Start: Collected := Collected([], [], [], None)

  /** The gathered records and their iteration counts stay in step. */
  lemma {:induction false} CollectInStep(c: Collected, records: seq<Option<BenchLine>>, flags: Flags, matches: string -> bool,
                                         regexGroups: string -> Result<map<string, string>, string>)
    requires |c.data| == |c.iters|
    ensures var d := CollectFrom(c, records, flags, matches, regexGroups); |d.data| == |d.iters|
    decreases |records|
  {
    if records != [] {
      CollectInStep(c, records[..|records| - 1], flags, matches, regexGroups);
    }
  }

  /**
   * Records are handled one after the other: the loop over two streams in
   * a row is the loop over the first followed by the loop over the second,
   * so each included record gives one entry, in input order.
   */
  lemma {:induction false} CollectAppend(c: Collected, a: seq<Option<BenchLine>>, b: seq<Option<BenchLine>>, flags: Flags,
                                         matches: string -> bool, regexGroups: string -> Result<map<string, string>, string>)
    ensures CollectFrom(c, a + b, flags, matches, regexGroups)
         == CollectFrom(CollectFrom(c, a, flags, matches, regexGroups), b, flags, matches, regexGroups)
    decreases |b|
  {
    if b == [] {
      assert a + b == a;
    } else {
      var n := |b| - 1;
      assert (a + b)[..|a + b| - 1] == a + b[..n];
      assert (a + b)[|a + b| - 1] == b[n];
      CollectAppend(c, a, b[..n], flags, matches, regexGroups);
    }
  }

  /** An error stops the loop: nothing after it changes the state. */
  lemma {:induction false} ErrorStops(c: Collected, records: seq<Option<BenchLine>>, flags: Flags, matches: string -> bool,
                                      regexGroups: string -> Result<map<string, string>, string>)
    requires c.error.Some?
    ensures CollectFrom(c, records, flags, matches, regexGroups) == c
    decreases |records|
  {
    if records != [] {
      ErrorStops(c, records[..|records| - 1], flags, matches, regexGroups);
    }
  }

  /**
   * With no filter and a pattern the check as written accepts, no line is
   * dropped and none fails: this parser keeps as many records as the text-format parser gives
   * results, with the lines' iteration counts in order.
   */
  lemma {:induction false} NothingFilteredKeepsEveryLine(records: seq<Option<BenchLine>>, flags: Flags, matches: string -> bool,
                                                         regexGroups: string -> Result<map<string, string>, string>)
    requires flags.filterRegex == "" && flags.groupRegex == ""
    requires ParsePattern.ValidatePatternAsWritten(flags.groupPattern).None?
    ensures var d := CollectFrom(Start, records, flags, matches, regexGroups);
      d.error.None? && |d.data| == |BenchResult.Results(records, flags)| && |d.iters| == |d.data|
    decreases |records|
  {
    if records != [] {
      var n := |records| - 1;
      NothingFilteredKeepsEveryLine(records[..n], flags, matches, regexGroups);
    }
  }

  // ---------------------------------------------------------------------------
  // Iteration counts

  /** The lines were not all run with the same iteration count. */
  predicate DifferentIters(iters: seq<int>) {
    exists i, j :: 0 <= i < |iters| && 0 <= j < |iters| && iters[i] != iters[j]
  }

  /** `hasDifferentIters`: compares every count after the first with the first, stopping at the first that differs. */
  method HasDifferentIters(allIters: seq<int>) returns (different: bool)
    ensures different <==> DifferentIters(allIters)
  {
    different := false;
    if |allIters| > 1 {
      var first := allIters[0];
      var k := 1;
      while k < |allIters|
        invariant 1 <= k <= |allIters|
        invariant forall j :: 0 <= j < k ==> allIters[j] == first
      {
        if allIters[k] != first {
          different := true;
          return;
        }
        k := k + 1;
      }
    }
  }

  /** Appends the Iterations statistic to every record, in place. */
  method AppendIterations(results: array<BenchmarkData>, allIters: seq<int>, flags: Flags)
    requires results.Length == |allIters|
    modifies results
    ensures forall i :: 0 <= i < results.Length ==>
      results[i] == old(results[i]).(stats := old(results[i]).stats + [IterationsStat(allIters[i], flags)])
  {
    for i := 0 to results.Length
      invariant forall j :: 0 <= j < i ==>
        results[j] == old(results[j]).(stats := old(results[j]).stats + [IterationsStat(allIters[j], flags)])
      invariant forall j :: i <= j < results.Length ==> results[j] == old(results[j])
    {
      results[i] := results[i].(stats := results[i].stats + [IterationsStat(allIters[i], flags)]);
    }
  }

  /** The records with the Iterations statistic appended to each. */
  function WithIterations(data: seq<BenchmarkData>, iters: seq<int>, flags: Flags): (out: seq<BenchmarkData>)
    requires |data| == |iters|
    ensures |out| == |data|
    ensures forall i :: 0 <= i < |data| ==>
      out[i].name == data[i].name && out[i].xAxis == data[i].xAxis && out[i].yAxis == data[i].yAxis
      && out[i].stats == data[i].stats + [IterationsStat(iters[i], flags)]
  {
    seq(|data|, i requires 0 <= i < |data| => data[i].(stats := data[i].stats + [IterationsStat(iters[i], flags)]))
  }

  /** The records as returned: with the Iterations statistic when the counts differ. */
  function Finish(data: seq<BenchmarkData>, iters: seq<int>, flags: Flags): seq<BenchmarkData>
    requires |data| == |iters|
  {
    if DifferentIters(iters) then WithIterations(data, iters, flags) else data
  }

  /** The outcome of `ParseBenchmarkData` on a stream of records. */
  function DataOf(records: seq<Option<BenchLine>>, flags: Flags, matches: string -> bool,
                  regexGroups: string -> Result<map<string, string>, string>): Result<seq<BenchmarkData>, string> {
    var c := CollectFrom(Start, records, flags, matches, regexGroups);
    CollectInStep(Start, records, flags, matches, regexGroups);
    if c.error.Some? then Err(c.error.value) else Ok(Finish(c.data, c.iters, flags))
  }

  /**
   * The Iterations statistic is added to every record, with the record's
   * own count converted to the number unit, exactly when the counts
   * differ; when they are all the same (in particular with a single
   * record) the records are returned as gathered.
   */
  lemma IterationsOnlyWhenCountsDiffer(data: seq<BenchmarkData>, iters: seq<int>, flags: Flags, i: nat)
    requires |data| == |iters|
    ensures var out := Finish(data, iters, flags);
      && |out| == |data|
      && (|iters| <= 1 ==> out == data)
      && (i < |out| ==>
            out[i].name == data[i].name && out[i].xAxis == data[i].xAxis && out[i].yAxis == data[i].yAxis
            && (DifferentIters(iters) <==> |out[i].stats| == |data[i].stats| + 1)
            && (DifferentIters(iters) ==>
                  out[i].stats[|out[i].stats| - 1].value * CountUnitSize(flags.numberUnit) == iters[i] as real))
  {
    if |iters| <= 1 {
      assert !DifferentIters(iters);
    }
    if i < |data| && DifferentIters(iters) {
      IterationsStatValue(data, iters, flags, i);
    }
  }

  /** The statistic appended to a record carries its iteration count, converted to the number unit. */
  lemma IterationsStatValue(data: seq<BenchmarkData>, iters: seq<int>, flags: Flags, i: nat)
    requires |data| == |iters| && i < |data|
    ensures var out := WithIterations(data, iters, flags);
      |out[i].stats| == |data[i].stats| + 1
      && out[i].stats[|out[i].stats| - 1].value * CountUnitSize(flags.numberUnit) == iters[i] as real
  {
    var out := WithIterations(data, iters, flags);
    assert out[i].stats[|out[i].stats| - 1] == IterationsStat(iters[i], flags);
  }

  /** The loop from the start, one record further. */
  lemma CollectSnoc(records: seq<Option<BenchLine>>, k: nat, flags: Flags, matches: string -> bool,
                    regexGroups: string -> Result<map<string, string>, string>)
    requires k < |records|
    ensures CollectFrom(Start, records[..k + 1], flags, matches, regexGroups)
         == Gather(CollectFrom(Start, records[..k], flags, matches, regexGroups), records[k], flags, matches, regexGroups)
  {
    assert records[..k + 1][..k] == records[..k];
  }

  /** Once the loop has stopped with an error, the outcome of the whole stream is that state. */
  lemma ErrorIsFinal(records: seq<Option<BenchLine>>, k: nat, flags: Flags, matches: string -> bool,
                     regexGroups: string -> Result<map<string, string>, string>)
    requires k <= |records|
    requires CollectFrom(Start, records[..k], flags, matches, regexGroups).error.Some?
    ensures CollectFrom(Start, records, flags, matches, regexGroups) == CollectFrom(Start, records[..k], flags, matches, regexGroups)
  {
    ErrorStops(CollectFrom(Start, records[..k], flags, matches, regexGroups), records[k..], flags, matches, regexGroups);
    CollectAppend(Start, records[..k], records[k..], flags, matches, regexGroups);
    assert records[..k] + records[k..] == records;
  }

  /** The end of `ParseBenchmarkData`: the Iterations statistic is appended in place when the counts differ. */
  method AddIterations(results: seq<BenchmarkData>, allIters: seq<int>, flags: Flags) returns (out: seq<BenchmarkData>)
    requires |results| == |allIters|
    ensures out == Finish(results, allIters, flags)
  {
    var different := HasDifferentIters(allIters);
    if different {
      var arr := new BenchmarkData[|results|](i requires 0 <= i < |results| => results[i]);
      AppendIterations(arr, allIters, flags);
      out := arr[..];
      assert out == WithIterations(results, allIters, flags);
    } else {
      out := results;
    }
  }

  /**
   * `ParseBenchmarkData` after the file is opened: the record loop, which
   * stores the CPU count from each included line and stops with the error
   * of the first name that cannot be grouped, then the Iterations
   * statistic when the counts differ.
   */
  method ParseBenchmarkData(records: seq<Option<BenchLine>>, flags: Flags, matches: string -> bool,
                            regexGroups: string -> Result<map<string, string>, string>, g: Globals)
    returns (r: Result<seq<BenchmarkData>, string>)
    modifies g
    ensures r == DataOf(records, flags, matches, regexGroups)
    ensures g.cpuCount == CpuAfter(old(g.cpuCount), CollectFrom(Start, records, flags, matches, regexGroups).cpus)
    ensures g.hasMemStats == old(g.hasMemStats)
  {
    var results: seq<BenchmarkData> := [];
    var allIters: seq<int> := [];
    ghost var cpus: seq<string> := [];
    for k := 0 to |records|
      invariant Collected(results, allIters, cpus, None) == CollectFrom(Start, records[..k], flags, matches, regexGroups)
      invariant g.cpuCount == CpuAfter(old(g.cpuCount), cpus)
      invariant g.hasMemStats == old(g.hasMemStats)
    {
      CollectSnoc(records, k, flags, matches, regexGroups);
      if records[k].Some? {
        var line := records[k].value;
        var rawName, cpuCore := ParseBenchmarkName(line);
        if ShouldInclude(rawName, flags.filterRegex, matches) {
          var group := GroupsOf(rawName, flags, regexGroups);
          if group.Err? {
            r := Err(group.error);
            ErrorIsFinal(records, k + 1, flags, matches, regexGroups);
            return;
          }
          var m := group.value;
          g.StoreCpuCount(cpuCore);
          assert (cpus + [cpuCore])[..|cpus|] == cpus;
          cpus := cpus + [cpuCore];
          var stats := ValueStats(line.values, flags);
          results := results + [BenchmarkData(Lookup(m, "name"), Lookup(m, "xAxis"), Lookup(m, "yAxis"), stats)];
          allIters := allIters + [line.iters];
        }
      }
    }
    assert records[..|records|] == records;
    CollectInStep(Start, records, flags, matches, regexGroups);
    var out := AddIterations(results, allIters, flags);
    r := Ok(out);
  }
}
