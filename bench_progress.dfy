/**
 * The progress line counter of the `vizb` command (cmd/bench_progress.go):
 * every line the benchmark run prints goes through `ProcessLine`, which
 * counts result lines and remembers the name of the latest benchmark.
 *
 * Decoding a line as a `go test -json` event is an oracle here: each line
 * comes with `parsed`, the event it decodes to, or `None` when it is not
 * JSON. The progress bar is a log of what it was asked to show.
 */
module BenchProgress {
  import opened Wrappers
  import opened Text

  /** A `go test -json` event; only `Test` is read here. */
  datatype BenchEvent = BenchEvent(action: string, test: string, output: string)

  const NsPerOp := "ns/op"
  const BenchmarkPrefix := "Benchmark"

  /** `hasBenchmark`: a line reports a result when it mentions "ns/op". */
  predicate HasBenchmark(line: string) {
    Contains(line, NsPerOp)
  }

  /**
   * A first field without its GOMAXPROCS suffix: everything before its
   * last '-', or the whole field when it has none.
   */
  function StripProcs(first: string): (name: string)
    ensures |name| <= |first| && first[..|name|] == name
    ensures '-' in first ==> |name| < |first| && first[|name|] == '-' && '-' !in first[|name| + 1..]
    ensures '-' !in first ==> name == first
  {
    match LastIndexOf(first, '-')
    case Some(i) => first[..i]
    case None => first
  }

  /**
   * `RawBenchmark.ExtractName`: the first field of a result line, cut at
   * its last '-'; "" for any other line.
   */
  function RawExtractName(line: string): (name: string)
    ensures !HasBenchmark(line) || Fields(line) == [] ==> name == ""
    ensures HasBenchmark(line) && Fields(line) != [] ==> name == StripProcs(Fields(line)[0])
  {
    if !HasBenchmark(line) then ""
    else
      var fields := Fields(line);
      if |fields| == 0 then "" else StripProcs(fields[0])
  }

  /**
   * `JSONBenchmark.ExtractName`: the event's test name when there is an
   * event and its test is a benchmark, "" otherwise; the line is ignored.
   */
  function JsonExtractName(event: Option<BenchEvent>, line: string): (name: string)
    ensures name != "" <==> event.Some? && StartsWith(event.value.test, BenchmarkPrefix)
    ensures name != "" ==> name == event.value.test
  {
    if event.Some? && event.value.test != "" && StartsWith(event.value.test, BenchmarkPrefix) then event.value.test
    else ""
  }

  /** The extractor `ProcessLine` picks: the JSON one for a line that decodes, the raw one otherwise. */
  function ExtractName(line: string, parsed: Option<BenchEvent>): string {
    if parsed.Some? then JsonExtractName(parsed, line) else RawExtractName(line)
  }

  /** What the progress bar was asked to describe: the current name and count. */
  datatype Shown = Shown(name: string, count: int)

  /** The manager's state and the descriptions shown so far. */
  datatype Progress = Progress(count: int, name: string, shown: seq<Shown>)

  const Initial := Progress(0, "", [])

  /** What one line tells the manager: whether it is a result line, and the name it yields ("" for none). */
  datatype Seen = Seen(isResult: bool, name: string)

  function SeenOf(line: string, parsed: Option<BenchEvent>): Seen {
    Seen(HasBenchmark(line), ExtractName(line, parsed))
  }

  /** One call of `ProcessLine`, given what its line tells. */
  function Step(p: Progress, s: Seen): (q: Progress)
    ensures q.count == p.count + (if s.isResult then 1 else 0)
    ensures s.name == "" ==> q.name == p.name && q.shown == p.shown
    ensures s.name != "" ==> q.name == s.name && q.shown == p.shown + [Shown(s.name, q.count)]
  {
    var count := if s.isResult then p.count + 1 else p.count;
    if s.name != "" then Progress(count, s.name, p.shown + [Shown(s.name, count)])
    else Progress(count, p.name, p.shown)
  }

  /** A state whose count, name and descriptions follow `Step`'s rules is `Step`'s result. */
  lemma StepIs(p: Progress, s: Seen, q: Progress)
    requires q.count == p.count + (if s.isResult then 1 else 0)
    requires s.name == "" ==> q.name == p.name && q.shown == p.shown
    requires s.name != "" ==> q.name == s.name && q.shown == p.shown + [Shown(s.name, q.count)]
    ensures q == Step(p, s)
  {
  }

  /** The state after lines telling `seen`, in order, from `p`. */
  function Run(p: Progress, seen: seq<Seen>): Progress
    decreases |seen|
  {
    if seen == [] then p else Step(Run(p, seen[..|seen| - 1]), seen[|seen| - 1])
  }

  /** `BenchmarkProgressManager`: the counter and the name it shows. */
  class ProgressManager {
    var benchmarkCount: int
    var currentBenchName: string
    var descriptions: seq<Shown>

    function State(): Progress
      reads this
    {
      Progress(benchmarkCount, currentBenchName, descriptions)
    }

    /** `NewBenchmarkProgressManager`: nothing counted, no name, nothing shown. */
    constructor ()
      ensures State() == Initial
    {
      benchmarkCount := 0;
      currentBenchName := "";
      descriptions := [];
    }

    /**
     * `ProcessLine`: count a result line; on a benchmark name, remember it
     * and show it with the count.
     */
    method ProcessLine(line: string, parsed: Option<BenchEvent>)
      modifies this
      ensures State() == Step(old(State()), SeenOf(line, parsed))
    {
      ghost var before := State();
      var isResult := HasBenchmark(line);
      if isResult {
        benchmarkCount := benchmarkCount + 1;
      }
      var name := ExtractName(line, parsed);
      if name != "" {
        currentBenchName := name;
        descriptions := descriptions + [Shown(currentBenchName, benchmarkCount)];
      }
      StepIs(before, Seen(isResult, name), State());
    }
  }

  /** Running two batches of lines is running their concatenation. */
  lemma {:induction false} RunAppend(p: Progress, a: seq<Seen>, b: seq<Seen>)
    ensures Run(p, a + b) == Run(Run(p, a), b)
    decreases |b|
  {
    if b == [] {
      assert a + b == a;
    } else {
      assert (a + b)[..|a + b| - 1] == a + b[..|b| - 1];
      RunAppend(p, a, b[..|b| - 1]);
    }
  }

  /** The count and the descriptions only grow, by at most one a line; earlier descriptions stay. */
  lemma {:induction false} CountGrows(p: Progress, seen: seq<Seen>)
    ensures p.count <= Run(p, seen).count <= p.count + |seen|
    ensures |p.shown| <= |Run(p, seen).shown| <= |p.shown| + |seen|
    ensures Run(p, seen).shown[..|p.shown|] == p.shown
    decreases |seen|
  {
    if seen != [] {
      CountGrows(p, seen[..|seen| - 1]);
    }
  }

  /** The number of result lines among `seen`. */
  function ResultLines(seen: seq<Seen>): (n: nat)
    ensures n <= |seen|
    ensures n == 0 <==> forall i :: 0 <= i < |seen| ==> !seen[i].isResult
    ensures n == |seen| <==> forall i :: 0 <= i < |seen| ==> seen[i].isResult
    decreases |seen|
  {
    if seen == [] then 0
    else
      var front := seen[..|seen| - 1];
      assert forall i :: 0 <= i < |front| ==> front[i] == seen[i];
      ResultLines(front) + (if seen[|seen| - 1].isResult then 1 else 0)
  }

  /** The count goes up by exactly the number of lines mentioning "ns/op". */
  lemma {:induction false} CountIsResultLines(p: Progress, seen: seq<Seen>)
    ensures Run(p, seen).count == p.count + ResultLines(seen)
    decreases |seen|
  {
    if seen != [] {
      CountIsResultLines(p, seen[..|seen| - 1]);
    }
  }

  /** The position of the last line that yields a name, if any. */
  function LastNamed(seen: seq<Seen>): (r: Option<nat>)
    ensures r.None? <==> forall i :: 0 <= i < |seen| ==> seen[i].name == ""
    ensures r.Some? ==> r.value < |seen| && seen[r.value].name != ""
    ensures r.Some? ==> forall k :: r.value < k < |seen| ==> seen[k].name == ""
    decreases |seen|
  {
    if seen == [] then None
    else if seen[|seen| - 1].name != "" then Some(|seen| - 1)
    else
      var front := seen[..|seen| - 1];
      assert forall i :: 0 <= i < |front| ==> front[i] == seen[i];
      LastNamed(front)
  }

  /**
   * The name shown is the name from the latest line that yields one, and
   * the last description shows it with the count as of that line; with no
   * such line the name and the descriptions stay as they were.
   */
  lemma {:induction false} NameIsLatestExtracted(p: Progress, seen: seq<Seen>)
    ensures LastNamed(seen).None? ==> Run(p, seen).name == p.name && Run(p, seen).shown == p.shown
    ensures LastNamed(seen).Some? ==>
      var i := LastNamed(seen).value;
      var q := Run(p, seen);
      && q.name == seen[i].name
      && q.shown != [] && q.shown[|q.shown| - 1] == Shown(q.name, Run(p, seen[..i + 1]).count)
    decreases |seen|
  {
    if seen != [] {
      var n := |seen| - 1;
      NameIsLatestExtracted(p, seen[..n]);
      var q := Run(p, seen);
      if seen[n].name != "" {
        NamedLine(p, seen);
        assert seen[..n + 1] == seen;
        assert q.shown[|q.shown| - 1] == Shown(q.name, Run(p, seen[..n + 1]).count);
      } else {
        UnnamedLine(p, seen);
        if LastNamed(seen).Some? {
          var i := LastNamed(seen).value;
          assert Run(p, seen[..i + 1]) == Run(p, seen[..n][..i + 1]);
        }
      }
    }
  }

  /** A last line yielding a name makes it the shown name, with the count after it. */
  lemma NamedLine(p: Progress, seen: seq<Seen>)
    requires seen != [] && seen[|seen| - 1].name != ""
    ensures LastNamed(seen) == Some(|seen| - 1)
    ensures Run(p, seen).name == seen[|seen| - 1].name
    ensures Run(p, seen).shown == Run(p, seen[..|seen| - 1]).shown + [Shown(Run(p, seen).name, Run(p, seen).count)]
  {
  }

  /** A last line yielding no name leaves the name, the descriptions and the latest named line as they were. */
  lemma UnnamedLine(p: Progress, seen: seq<Seen>)
    requires seen != [] && seen[|seen| - 1].name == ""
    ensures var front := seen[..|seen| - 1];
      && LastNamed(seen) == LastNamed(front)
      && Run(p, seen).name == Run(p, front).name
      && Run(p, seen).shown == Run(p, front).shown
      && (LastNamed(front).Some? ==>
            var i := LastNamed(front).value;
            seen[i] == front[i] && seen[..i + 1] == front[..i + 1])
  {
    var front := seen[..|seen| - 1];
    assert LastNamed(seen) == LastNamed(front);
    if LastNamed(front).Some? {
      var i := LastNamed(front).value;
      assert seen[..i + 1] == front[..i + 1];
    }
  }
}
