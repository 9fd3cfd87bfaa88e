/**
 * Benchmark and group selection (composables/useBenchmarkData.ts): the
 * records of the active benchmark are grouped by name, in order of first
 * appearance, and the UI selects one benchmark and one group within it.
 * Selecting a benchmark clears the colour allocator and applies the
 * benchmark's settings to the shared settings store.
 */
module Benchmarks {
  import opened Wrappers
  import opened SeqUtil
  import opened ChartTypes
  import Colors
  import SettingsStore

  /** The settings a group gets when its benchmark has none (types/benchmark.ts). */
  const DefaultSettings: Settings := Settings(Sort(false, "asc"), false, Some(["line", "pie", "bar"]))

  /** The names of the records, in order. */
  function Names(data: seq<BenchmarkData>): (names: seq<string>)
    ensures |names| == |data|
    ensures forall k :: 0 <= k < |data| ==> names[k] == data[k].name
  {
    if data == [] then [] else Names(data[..|data| - 1]) + [data[|data| - 1].name]
  }

  function HasName(name: string): BenchmarkData -> bool {
    (r: BenchmarkData) => r.name == name
  }

  /** The records of one group: those with its name, in input order. */
  function GroupOf(data: seq<BenchmarkData>, name: string): seq<BenchmarkData> {
    Filter(data, HasName(name))
  }

  /** The map the grouping loop builds: each record appended to the list under its name, created on first sight. */
  function GroupMap(data: seq<BenchmarkData>): map<string, seq<BenchmarkData>> {
    if data == [] then map[]
    else
      var m := GroupMap(data[..|data| - 1]);
      var r := data[|data| - 1];
      m[r.name := (if r.name in m then m[r.name] else []) + [r]]
  }

  /** The map's keys are the record names, and under each name are that name's records in input order. */
  lemma {:induction false} GroupMapIsFilter(data: seq<BenchmarkData>, n: string)
    ensures n in GroupMap(data) <==> n in Names(data)
    ensures n in GroupMap(data) ==> GroupMap(data)[n] == GroupOf(data, n)
  {
    if data != [] {
      var front := data[..|data| - 1];
      var r := data[|data| - 1];
      GroupMapIsFilter(front, n);
      assert data == front + [r];
      assert Names(data) == Names(front) + [r.name];
      FilterSnoc(front, r, HasName(n));
      if n == r.name && n !in GroupMap(front) {
        FilterNone(front, HasName(n));
      }
    }
  }

  /** One iteration of the grouping loop, in terms of the specification functions. */
  lemma GroupingStep(data: seq<BenchmarkData>, i: nat)
    requires i < |data|
    ensures var r := data[i]; var m := GroupMap(data[..i]);
      && (r.name in m <==> r.name in Dedup(Names(data[..i])))
      && Dedup(Names(data[..i + 1])) == (if r.name in m then Dedup(Names(data[..i])) else Dedup(Names(data[..i])) + [r.name])
      && GroupMap(data[..i + 1]) == m[r.name := (if r.name in m then m[r.name] else []) + [r]]
  {
    var r := data[i];
    assert data[..i + 1] == data[..i] + [r];
    assert data[..i + 1][..i] == data[..i];
    NamesStep(data[..i], r);
    GroupMapIsFilter(data[..i], r.name);
  }

  lemma NamesStep(data: seq<BenchmarkData>, r: BenchmarkData)
    ensures Dedup(Names(data + [r])) == if r.name in Dedup(Names(data)) then Dedup(Names(data)) else Dedup(Names(data)) + [r.name]
  {
    assert Names(data + [r]) == Names(data) + [r.name];
    DedupSnoc(Names(data), r.name);
  }

  /**
   * The grouping loop: a map from name to records that keeps its keys in
   * insertion order, so the names come out in order of first appearance.
   */
  method GroupByName(data: seq<BenchmarkData>) returns (names: seq<string>, groups: map<string, seq<BenchmarkData>>)
    ensures names == Dedup(Names(data))
    ensures forall n :: n in groups <==> n in names
    ensures forall n :: n in groups ==> groups[n] == GroupOf(data, n)
  {
    names, groups := [], map[];
    for i := 0 to |data|
      invariant names == Dedup(Names(data[..i])) && groups == GroupMap(data[..i])
    {
      var r := data[i];
      GroupingStep(data, i);
      var prior := if r.name in groups then groups[r.name] else [];
      if r.name !in groups {
        names := names + [r.name];
      }
      groups := groups[r.name := prior + [r]];
    }
    assert data[..|data|] == data;
    forall n ensures (n in groups <==> n in names) && (n in groups ==> groups[n] == GroupOf(data, n)) {
      GroupMapIsFilter(data, n);
    }
  }

  /**
   * Grouping loses nothing and mixes nothing: every record is in the group
   * of its name, a group holds only records of its name, in input order,
   * and groups follow the order in which their names first appear.
   */
  lemma {:induction false} GroupingPartitions(data: seq<BenchmarkData>, k: nat, i: nat, j: nat, n: string)
    requires k < |data| && i < j < |Dedup(Names(data))|
    ensures data[k] in GroupOf(data, data[k].name)
    ensures forall x :: x in GroupOf(data, n) ==> x in data && x.name == n
    ensures var names := Dedup(Names(data));
      FirstIndex(Names(data), names[i]) < FirstIndex(Names(data), names[j])
  {
    DedupFirstSeenOrder(Names(data), i, j);
    GroupContains(data, k);
  }

  lemma {:induction false} GroupContains(data: seq<BenchmarkData>, k: nat)
    requires k < |data|
    ensures data[k] in GroupOf(data, data[k].name)
  {
    var n := |data| - 1;
    var front := data[..n];
    assert data == front + [data[n]];
    FilterSnoc(front, data[n], HasName(data[k].name));
    if k < n {
      GroupContains(front, k);
      assert front[k] == data[k];
    }
  }

  /**
   * One group as the UI shows it: the group's name and records, with the
   * active benchmark's description, CPU and settings (or their defaults).
   */
  function GroupView(b: Benchmark, name: string, data: seq<BenchmarkData>): (g: Benchmark)
    ensures g.name == name && g.data == data && g.description == b.description
    ensures g.settings == Some(b.settings.GetOr(DefaultSettings))
  {
    Benchmark(name, b.description, b.cpuName, b.cpuCores, Some(b.settings.GetOr(DefaultSettings)), data)
  }

  /** The groups of a benchmark, one per distinct record name in first-seen order. */
  function GroupsOf(b: Option<Benchmark>): (groups: seq<Benchmark>)
    ensures b.None? ==> groups == []
    ensures b.Some? ==> |groups| == |Dedup(Names(b.value.data))|
    ensures b.Some? ==> forall i :: 0 <= i < |groups| ==>
      var n := Dedup(Names(b.value.data))[i];
      groups[i] == GroupView(b.value, n, GroupOf(b.value.data, n))
  {
    if b.None? then []
    else
      var names := Dedup(Names(b.value.data));
      seq(|names|, i requires 0 <= i < |names| => GroupView(b.value, names[i], GroupOf(b.value.data, names[i])))
  }

  /** `list[index] || list[0]`: the entry at the index, else the first, else nothing. */
  function AtOrFirst<T>(list: seq<T>, index: int): (r: Option<T>)
    ensures 0 <= index < |list| ==> r == Some(list[index])
    ensures !(0 <= index < |list|) && list != [] ==> r == Some(list[0])
    ensures list == [] <==> r.None?
  {
    if 0 <= index < |list| then Some(list[index]) else if list != [] then Some(list[0]) else None
  }

  /** The page state: the loaded benchmarks and the two selections, wired to the shared store and colour allocator. */
  class Selection {
    var benchmarks: seq<Benchmark>
    var activeBenchmarkId: int
    var activeGroupId: int
    const store: SettingsStore.Store
    const colors: Colors.ColorAssigner

    constructor(benchmarks: seq<Benchmark>, store: SettingsStore.Store, colors: Colors.ColorAssigner)
      ensures this.benchmarks == benchmarks && this.store == store && this.colors == colors
      ensures activeBenchmarkId == 0 && activeGroupId == 0
    {
      this.benchmarks := benchmarks;
      this.store := store;
      this.colors := colors;
      activeBenchmarkId := 0;
      activeGroupId := 0;
    }

    /** `activeBenchmark`: the selected benchmark, or the first when the id is out of range. */
    function ActiveBenchmark(): (b: Option<Benchmark>)
      reads this
    {
      AtOrFirst(benchmarks, activeBenchmarkId)
    }

    /** `resultGroups`. */
    function Groups(): seq<Benchmark>
      reads this
    {
      GroupsOf(ActiveBenchmark())
    }

    /** `activeGroup`: the selected group, or the first when the id is out of range. */
    function ActiveGroup(): (g: Option<Benchmark>)
      reads this
      ensures 0 <= activeGroupId < |Groups()| ==> g == Some(Groups()[activeGroupId])
      ensures !(0 <= activeGroupId < |Groups()|) && Groups() != [] ==> g == Some(Groups()[0])
    {
      AtOrFirst(Groups(), activeGroupId)
    }

    /**
     * Selects a benchmark. Out of range: nothing changes. In range: the
     * colour allocator is cleared, the id is set, the benchmark's settings
     * (if it has any) are forced into the store, and the first group is
     * selected.
     */
    method SelectBenchmark(id: int)
      requires store.Valid()
      modifies this, store, colors
      ensures store.Valid()
      ensures benchmarks == old(benchmarks)
      ensures !(0 <= id < |benchmarks|) ==>
        activeBenchmarkId == old(activeBenchmarkId) && activeGroupId == old(activeGroupId)
        && colors.State() == old(colors.State())
        && store.charts == old(store.charts) && store.activeChartIndex == old(store.activeChartIndex)
        && store.sort == old(store.sort) && store.showLabels == old(store.showLabels)
      ensures 0 <= id < |benchmarks| ==>
        activeBenchmarkId == id && activeGroupId == 0 && colors.State() == Colors.Reset
      ensures 0 <= id < |benchmarks| && benchmarks[id].settings.Some? ==>
        var s := benchmarks[id].settings.value;
        store.sort == s.sort && store.showLabels == s.showLabels && store.activeChartIndex == 0
        && store.charts == SettingsStore.ChartsFor(s.charts.GetOr(SettingsStore.DefaultCharts))
      ensures 0 <= id < |benchmarks| && benchmarks[id].settings.None? ==>
        store.charts == old(store.charts) && store.activeChartIndex == old(store.activeChartIndex)
        && store.sort == old(store.sort) && store.showLabels == old(store.showLabels)
    {
      if 0 <= id < |benchmarks| {
        colors.ResetColor();
        activeBenchmarkId := id;
        var b := benchmarks[id];
        if b.settings.Some? {
          store.InitializeFromBenchmark(b.settings.value, true);
        }
        activeGroupId := 0;
      }
    }

    /** Selects a group of the active benchmark; an id out of range changes nothing. */
    method SelectGroup(id: int)
      modifies this
      ensures benchmarks == old(benchmarks) && activeBenchmarkId == old(activeBenchmarkId)
      ensures activeGroupId == if 0 <= id < |Groups()| then id else old(activeGroupId)
    {
      if 0 <= id < |Groups()| {
        activeGroupId := id;
      }
    }
  }
}
