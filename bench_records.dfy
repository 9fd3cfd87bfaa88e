/**
 * What the two Go parsers of pkg/parser share: the benchmark lines that
 * golang.org/x/perf/benchfmt hands them, the statistic records they build
 * (shared/bench_result.go), the command-line flags they read, and the two
 * package-level globals of package `shared` they write, `CPUCount` and
 * `HasMemStats`.
 */
module BenchRecords {
  import opened Wrappers
  import opened Text

  /** One measured value of a benchmark line: the value in its base unit and, when benchfmt scaled it, the value and unit as printed. */
  datatype BenchValue = BenchValue(value: real, unit: string, origValue: real, origUnit: string)

  /**
   * A benchmark line: its name as benchfmt splits it (the base, then parts
   * that each start with "/" or, for the CPU suffix, "-"), its iteration
   * count and its values.
   */
  datatype BenchLine = BenchLine(base: string, parts: seq<string>, iters: int, values: seq<BenchValue>)

  /** A statistic of one benchmark (`shared.Stat`); `NotPerOp` is never set by the parsers and is not modelled. */
  datatype Stat = Stat(statType: string, value: real, unit: string)

  /** The statistic a value with an unrecognised unit gets: Go's zero `Stat`. */
  const ZeroStat: Stat := Stat("", 0.0, "")

  /** The flags the parsers read from `shared.FlagState`. */
  datatype Flags = Flags(
    timeUnit: string,
    memUnit: string,
    allocUnit: string,
    numberUnit: string,
    filterRegex: string,
    groupRegex: string,
    groupPattern: string)

  /** A name part that carries the CPU count ("-8"). */
  predicate IsCpuPart(part: string) {
    StartsWith(part, "-")
  }

  /** The CPU suffix the name-parsing loop leaves behind: the last "-" part without its dash, "" if there is none. */
  function CpuOf(parts: seq<string>): string {
    if parts == [] then ""
    else
      var last := parts[|parts| - 1];
      if IsCpuPart(last) then TrimPrefix(last, "-") else CpuOf(parts[..|parts| - 1])
  }

  /** The last "-" part wins: later path parts leave it alone, and without any "-" part the CPU suffix is "". */
  lemma {:induction false} CpuIsLastDashPart(parts: seq<string>, i: nat)
    requires i < |parts| && IsCpuPart(parts[i])
    requires forall j :: i < j < |parts| ==> !IsCpuPart(parts[j])
    ensures CpuOf(parts) == TrimPrefix(parts[i], "-")
    ensures "-" + CpuOf(parts) == parts[i]
    decreases |parts|
  {
    if i < |parts| - 1 {
      CpuIsLastDashPart(parts[..|parts| - 1], i);
    }
  }

  lemma {:induction false} NoDashPartNoCpu(parts: seq<string>)
    requires forall j :: 0 <= j < |parts| ==> !IsCpuPart(parts[j])
    ensures CpuOf(parts) == ""
    decreases |parts|
  {
    if parts != [] {
      NoDashPartNoCpu(parts[..|parts| - 1]);
    }
  }

  /** `storeCpuCount`: the count is taken from the first suffix seen while it is still 0, and only if the suffix parses. */
  function StoredCpu(count: int, cpu: string): (next: int)
    ensures count != 0 ==> next == count
    ensures count == 0 ==> next == Atoi(cpu).GetOr(0)
  {
    if count == 0 && Atoi(cpu).Some? then Atoi(cpu).value else count
  }

  /** The count after `storeCpuCount` has seen each suffix in turn. */
  function CpuAfter(count: int, cpus: seq<string>): int {
    if cpus == [] then count else StoredCpu(CpuAfter(count, cpus[..|cpus| - 1]), cpus[|cpus| - 1])
  }

  /** Once the count is non-zero no later suffix changes it. */
  lemma {:induction false} CpuCountSticks(count: int, cpus: seq<string>)
    requires count != 0
    ensures CpuAfter(count, cpus) == count
    decreases |cpus|
  {
    if cpus != [] {
      CpuCountSticks(count, cpus[..|cpus| - 1]);
    }
  }

  /**
   * Starting from 0, the count is the value of the first suffix that parses
   * to a non-zero number; suffixes that do not parse, or parse to 0, are
   * passed over.
   */
  lemma {:induction false} CpuCountIsFirstParsed(cpus: seq<string>, i: nat)
    requires i < |cpus| && Atoi(cpus[i]).GetOr(0) != 0
    requires forall j :: 0 <= j < i ==> Atoi(cpus[j]).GetOr(0) == 0
    ensures CpuAfter(0, cpus) == Atoi(cpus[i]).value
    decreases |cpus|
  {
    var n := |cpus| - 1;
    var front := cpus[..n];
    assert CpuAfter(0, cpus) == StoredCpu(CpuAfter(0, front), cpus[n]);
    assert forall j :: 0 <= j < n ==> front[j] == cpus[j];
    if i < n {
      CpuCountIsFirstParsed(front, i);
    } else {
      CpuAfterUnparsed(front);
      assert Atoi(cpus[n]).Some?;
    }
  }

  /** Suffixes that all parse to nothing or to 0 leave the count at 0. */
  lemma {:induction false} CpuAfterUnparsed(cpus: seq<string>)
    requires forall j :: 0 <= j < |cpus| ==> Atoi(cpus[j]).GetOr(0) == 0
    ensures CpuAfter(0, cpus) == 0
    decreases |cpus|
  {
    if cpus != [] {
      CpuAfterUnparsed(cpus[..|cpus| - 1]);
    }
  }

  /** The package-level state the parsers write. */
  class Globals {
    /** `shared.CPUCount`: 0 until a benchmark name gives a CPU count. */
    var cpuCount: int
    /** `shared.HasMemStats`: set once a memory statistic is seen. */
    var hasMemStats: bool

    constructor()
      ensures cpuCount == 0 && !hasMemStats
    {
      cpuCount := 0;
      hasMemStats := false;
    }

    /** `storeCpuCount`. */
    method StoreCpuCount(cpu: string)
      modifies this
      ensures cpuCount == StoredCpu(old(cpuCount), cpu)
      ensures hasMemStats == old(hasMemStats)
    {
      if cpuCount == 0 {
        var parsed := Atoi(cpu);
        if parsed.Some? {
          cpuCount := parsed.value;
        }
      }
    }

    /** Records that a memory statistic was seen. */
    method MarkMemStats()
      modifies this
      ensures hasMemStats && cpuCount == old(cpuCount)
    {
      hasMemStats := true;
    }
  }
}
