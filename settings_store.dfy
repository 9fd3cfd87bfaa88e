/**
 * The UI's settings store (composables/useSettingsStore.ts): one shared
 * settings object holding the sort directive, the label flag, the chart
 * types offered and the index of the one shown, plus the flag that lets a
 * benchmark's settings be applied only once unless forced.
 */
module SettingsStore {
  import opened Wrappers
  import opened Text
  import opened SeqUtil
  import opened ChartTypes

  /** The store's default chart types (composables/constants.ts), which are also the only ones allowed. */
  const DefaultCharts: seq<string> := ["bar", "line", "pie"]

  predicate IsAllowed(c: string) {
    c in DefaultCharts
  }

  /** The chart list `setCharts(list)` installs: the allowed entries of `list`, or the defaults if none is. */
  function ChartsFor(list: seq<string>): (charts: seq<string>)
    ensures |charts| > 0
    ensures forall i :: 0 <= i < |charts| ==> IsAllowed(charts[i])
  {
    var filtered := Filter(list, IsAllowed);
    if |filtered| > 0 then filtered else DefaultCharts
  }

  /**
   * A list of allowed types is installed as it is (order and repeats kept);
   * a list with no allowed type installs the defaults; in general the allowed
   * entries keep their relative order.
   */
  lemma ChartsForKeepsAllowedOrder(list: seq<string>)
    ensures (forall i :: 0 <= i < |list| ==> IsAllowed(list[i])) && list != [] ==> ChartsFor(list) == list
    ensures (forall i :: 0 <= i < |list| ==> !IsAllowed(list[i])) ==> ChartsFor(list) == DefaultCharts
    ensures Filter(list, IsAllowed) != [] ==> ChartsFor(list) == Filter(list, IsAllowed)
  {
    if forall i :: 0 <= i < |list| ==> IsAllowed(list[i]) {
      FilterAll(list, IsAllowed);
    }
    if forall i :: 0 <= i < |list| ==> !IsAllowed(list[i]) {
      FilterNone(list, IsAllowed);
    }
  }

  /** `charts[activeChartIndex] ?? 'bar'`. */
  function ChartTypeAt(charts: seq<string>, index: int): (t: string)
    ensures 0 <= index < |charts| ==> t == charts[index]
    ensures !(0 <= index < |charts|) ==> t == "bar"
  {
    if 0 <= index < |charts| then charts[index] else "bar"
  }

  class Store {
    var sort: Sort
    var showLabels: bool
    var charts: seq<string>
    var activeChartIndex: int
    var swapIndex: map<int, int>
    /** The module-level `initialized` flag. */
    var initialized: bool

    /** The store's invariant: a non-empty list of allowed types and an index inside it. */
    ghost predicate Valid()
      reads this
    {
      |charts| > 0 && 0 <= activeChartIndex < |charts| && forall i :: 0 <= i < |charts| ==> IsAllowed(charts[i])
    }

    /** The store as the module creates it. */
    constructor()
      ensures Valid()
      ensures sort == Sort(false, "asc") && !showLabels && charts == DefaultCharts
      ensures activeChartIndex == 0 && swapIndex == map[] && !initialized
    {
      sort := Sort(false, "asc");
      showLabels := false;
      charts := DefaultCharts;
      activeChartIndex := 0;
      swapIndex := map[];
      initialized := false;
    }

    /** The computed `chartType`: the type at the active index, 'bar' if there is none. */
    function ChartType(): (t: string)
      reads this
      ensures Valid() ==> t == charts[activeChartIndex] && IsAllowed(t)
    {
      ChartTypeAt(charts, activeChartIndex)
    }

    method SetSort(s: Sort)
      modifies this
      ensures sort == s
      ensures showLabels == old(showLabels) && charts == old(charts) && activeChartIndex == old(activeChartIndex)
      ensures swapIndex == old(swapIndex) && initialized == old(initialized)
    {
      sort := s;
    }

    method SetShowLabels(show: bool)
      modifies this
      ensures showLabels == show
      ensures sort == old(sort) && charts == old(charts) && activeChartIndex == old(activeChartIndex)
      ensures swapIndex == old(swapIndex) && initialized == old(initialized)
    {
      showLabels := show;
    }

    /** Installs the allowed types of `list` (or the defaults) and resets an index that fell out of range to 0. */
    method SetCharts(list: seq<string>)
      modifies this
      ensures Valid()
      ensures charts == ChartsFor(list)
      ensures activeChartIndex == if 0 <= old(activeChartIndex) < |charts| then old(activeChartIndex) else 0
      ensures sort == old(sort) && showLabels == old(showLabels)
      ensures swapIndex == old(swapIndex) && initialized == old(initialized)
    {
      charts := ChartsFor(list);
      if activeChartIndex < 0 || activeChartIndex >= |charts| {
        activeChartIndex := 0;
      }
    }

    /** Selects a chart by position; an index out of range changes nothing. */
    method SetActiveChartIndex(index: int)
      requires Valid()
      modifies this
      ensures Valid()
      ensures activeChartIndex == if 0 <= index < |charts| then index else old(activeChartIndex)
      ensures sort == old(sort) && showLabels == old(showLabels) && charts == old(charts)
      ensures swapIndex == old(swapIndex) && initialized == old(initialized)
    {
      if index >= 0 && index < |charts| {
        activeChartIndex := index;
      }
    }

    /** Selects the first chart of the given type; a type not on offer changes nothing. */
    method SetChartType(t: string)
      requires Valid()
      modifies this
      ensures Valid()
      ensures t in charts ==> ChartType() == t && t !in charts[..activeChartIndex]
      ensures t !in charts ==> activeChartIndex == old(activeChartIndex)
      ensures sort == old(sort) && showLabels == old(showLabels) && charts == old(charts)
      ensures swapIndex == old(swapIndex) && initialized == old(initialized)
    {
      var idx := IndexOf(charts, t);
      if idx.Some? {
        activeChartIndex := idx.value;
      }
    }

    /**
     * Applies a benchmark's settings the first time, or whenever forced:
     * its sort and label flag, its chart list (the defaults when it has
     * none), and the first chart selected.
     */
    method InitializeFromBenchmark(input: Settings, force: bool)
      requires Valid()
      modifies this
      ensures Valid()
      ensures old(initialized) && !force ==>
        sort == old(sort) && showLabels == old(showLabels) && charts == old(charts)
        && activeChartIndex == old(activeChartIndex) && initialized
      ensures !old(initialized) || force ==>
        sort == input.sort && showLabels == input.showLabels
        && charts == ChartsFor(input.charts.GetOr(DefaultCharts)) && activeChartIndex == 0 && initialized
      ensures swapIndex == old(swapIndex)
    {
      if !initialized || force {
        sort := input.sort;
        showLabels := input.showLabels;
        SetCharts(input.charts.GetOr(DefaultCharts));
        SetActiveChartIndex(0);
        initialized := true;
      }
    }

    method SetSelectedSwapIndex(benchmarkId: int, index: int)
      modifies this
      ensures swapIndex == old(swapIndex)[benchmarkId := index]
      ensures sort == old(sort) && showLabels == old(showLabels) && charts == old(charts)
      ensures activeChartIndex == old(activeChartIndex) && initialized == old(initialized)
    {
      swapIndex := swapIndex[benchmarkId := index];
    }

    /** The swap index stored for a benchmark, None if there is none. */
    function GetSelectedSwapIndex(benchmarkId: int): (r: Option<int>)
      reads this
      ensures r.Some? <==> benchmarkId in swapIndex
      ensures r.Some? ==> r.value == swapIndex[benchmarkId]
    {
      if benchmarkId in swapIndex then Some(swapIndex[benchmarkId]) else None
    }
  }
}
