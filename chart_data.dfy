/**
 * The chart data builder of composables/useChartData.ts. Records carry
 * statistics; each distinct statistic signature (type, unit, per) becomes
 * one chart. Its y domain and x domain are the distinct labels of the records
 * that have a value for that signature, and every series (one per x label)
 * holds one value per y label, 0 where nothing was observed.
 */
module ChartDataBuilder {
  import opened Wrappers
  import opened SeqUtil
  import opened ChartTypes
  import StatType

  /** What a template literal prints for an absent field. */
  const Undefined := "undefined"

  /** How a template literal renders an optional string field: an absent one prints "undefined". */
  function Render(o: Option<string>): string {
    match o
    case None => Undefined
    case Some(s) => s
  }

  /** An optional string seen through truthiness: absent and "" are both falsy. */
  function TruthyText(o: Option<string>): string {
    match o
    case None => ""
    case Some(s) => s
  }

  /**
   * `createChartTitle`: the type qualified by whichever of unit and per are
   * truthy. It is the label the Go side builds with CreateStatType.
   */
  function ChartTitle(stat: Stat): (title: string)
    ensures title == StatType.CreateStatType(stat.statType, TruthyText(stat.unit), TruthyText(stat.per))
  {
    var unit := TruthyText(stat.unit);
    var per := TruthyText(stat.per);
    if unit != "" && per != "" then stat.statType + " (" + unit + "/" + per + ")"
    else if unit != "" then stat.statType + " (" + unit + ")"
    else if per != "" then stat.statType + "/" + per
    else stat.statType
  }

  /** `toStatSignature`: type, unit and per joined by "-". */
  function StatSignature(stat: Stat): string {
    stat.statType + "-" + Render(stat.unit) + "-" + Render(stat.per)
  }

  function Signatures(stats: seq<Stat>): (sigs: seq<string>)
    ensures |sigs| == |stats|
    ensures forall i :: 0 <= i < |stats| ==> sigs[i] == StatSignature(stats[i])
  {
    if stats == [] then [] else Signatures(stats[..|stats| - 1]) + [StatSignature(stats[|stats| - 1])]
  }

  /** Every statistic of every record, in record order. */
  function AllStats(data: seq<BenchmarkData>): seq<Stat> {
    if data == [] then [] else AllStats(data[..|data| - 1]) + data[|data| - 1].stats
  }

  /** The signatures of the input, each once, in order of first appearance. */
  function UniqueSignatures(data: seq<BenchmarkData>): seq<string> {
    Dedup(Signatures(AllStats(data)))
  }

  /** The first statistic with signature `sig`: the template a chart takes its title and unit from. */
  function FirstWith(stats: seq<Stat>, sig: string): Stat
    requires sig in Signatures(stats)
  {
    stats[FirstIndex(Signatures(stats), sig)]
  }

  /**
   * `stats.find(s => toStatSignature(s) === sig)?.value`: the value of the
   * first statistic with that signature. If that one has no value the record
   * has none for the signature, even when a later statistic would.
   */
  function MatchingValue(stats: seq<Stat>, sig: string): (v: Option<real>)
    ensures sig !in Signatures(stats) ==> v == None
    ensures sig in Signatures(stats) ==> v == FirstWith(stats, sig).value
  {
    if stats == [] then None
    else if StatSignature(stats[0]) == sig then stats[0].value
    else
      FirstWithTail(stats, sig);
      MatchingValue(stats[1..], sig)
  }

  lemma SignaturesTail(stats: seq<Stat>)
    requires stats != []
    ensures Signatures(stats) == [StatSignature(stats[0])] + Signatures(stats[1..])
  {
    PointwiseTail(stats, Signatures(stats), Signatures(stats[1..]), StatSignature);
  }

  /** Past a first statistic of another signature, the first statistic with `sig` is found in the rest. */
  lemma FirstWithTail(stats: seq<Stat>, sig: string)
    requires stats != [] && StatSignature(stats[0]) != sig
    ensures sig in Signatures(stats) <==> sig in Signatures(stats[1..])
    ensures sig in Signatures(stats) ==> FirstWith(stats, sig) == FirstWith(stats[1..], sig)
  {
    SignaturesTail(stats);
    var rest := Signatures(stats[1..]);
    FirstIndexCons(StatSignature(stats[0]), rest, sig);
    if sig in rest {
      var k := FirstIndex(rest, sig);
      assert stats[k + 1] == stats[1..][k];
    }
  }

  /** A value observed for one signature at one (y, x) label pair. */
  datatype Observation = Observation(yAxis: string, xAxis: string, value: real)

  /** The records that have a value for `sig`, as observations, in record order. */
  function Observations(data: seq<BenchmarkData>, sig: string): seq<Observation> {
    if data == [] then []
    else
      var r := data[|data| - 1];
      Observations(data[..|data| - 1], sig) + ObservationOf(r, sig)
  }

  function ObservationOf(r: BenchmarkData, sig: string): seq<Observation> {
    match MatchingValue(r.stats, sig)
    case None => []
    case Some(v) => [Observation(r.yAxis, r.xAxis, v)]
  }

  function YLabels(obs: seq<Observation>): (ys: seq<string>)
    ensures |ys| == |obs| && forall i :: 0 <= i < |obs| ==> ys[i] == obs[i].yAxis
  {
    if obs == [] then [] else YLabels(obs[..|obs| - 1]) + [obs[|obs| - 1].yAxis]
  }

  function XLabels(obs: seq<Observation>): (xs: seq<string>)
    ensures |xs| == |obs| && forall i :: 0 <= i < |obs| ==> xs[i] == obs[i].xAxis
  {
    if obs == [] then [] else XLabels(obs[..|obs| - 1]) + [obs[|obs| - 1].xAxis]
  }

  /** The value stored at (y, x): the last observation there wins. */
  function Cell(obs: seq<Observation>, y: string, x: string): Option<real> {
    if obs == [] then None
    else
      var o := obs[|obs| - 1];
      if o.yAxis == y && o.xAxis == x then Some(o.value) else Cell(obs[..|obs| - 1], y, x)
  }

  /** `dataMap.get(y)?.get(x) || 0`. */
  function CellValue(obs: seq<Observation>, y: string, x: string): real {
    Cell(obs, y, x).GetOr(0.0)
  }

  /** `data[0]?.name || ""`. */
  function BenchmarkId(data: seq<BenchmarkData>): string {
    if data == [] then "" else data[0].name
  }

  /** The values of the series of `x`, one per y label. */
  function Row(obs: seq<Observation>, ys: seq<string>, x: string): (row: seq<real>)
    ensures |row| == |ys| && forall j :: 0 <= j < |ys| ==> row[j] == CellValue(obs, ys[j], x)
  {
    seq(|ys|, j requires 0 <= j < |ys| => CellValue(obs, ys[j], x))
  }

  /** One series per x label, each aligned to the y labels. */
  function SeriesOf(obs: seq<Observation>, ys: seq<string>, xs: seq<string>, benchmarkId: string): (series: seq<SeriesData>)
    ensures |series| == |xs|
    ensures forall k :: 0 <= k < |xs| ==> series[k] == SeriesData(xs[k], Row(obs, ys, xs[k]), benchmarkId)
  {
    seq(|xs|, k requires 0 <= k < |xs| => SeriesData(xs[k], Row(obs, ys, xs[k]), benchmarkId))
  }

  /** The chart for one signature, as the builder defines it. */
  function PivotChart(data: seq<BenchmarkData>, sig: string, template: Stat): ChartData {
    var obs := Observations(data, sig);
    var ys := Dedup(YLabels(obs));
    ChartData(ChartTitle(template), template.statType, template.unit, ys, SeriesOf(obs, ys, Dedup(XLabels(obs)), BenchmarkId(data)))
  }

  /** The charts for the whole input: one per signature, in first-seen order. */
  function Charts(data: seq<BenchmarkData>): seq<ChartData> {
    if data == [] then []
    else
      var sigs := UniqueSignatures(data);
      seq(|sigs|, i requires 0 <= i < |sigs| => PivotChart(data, sigs[i], FirstWith(AllStats(data), sigs[i])))
  }

  /** `dataMap.get(y)?.get(x)` on the nested map the builder fills. */
  function Lookup(dataMap: map<string, map<string, real>>, y: string, x: string): Option<real> {
    if y in dataMap && x in dataMap[y] then Some(dataMap[y][x]) else None
  }

  lemma SignaturesSnoc(stats: seq<Stat>, s: Stat)
    ensures Signatures(stats + [s]) == Signatures(stats) + [StatSignature(s)]
    ensures forall sig | sig in Signatures(stats) :: FirstWith(stats + [s], sig) == FirstWith(stats, sig)
    ensures StatSignature(s) !in Signatures(stats) ==> FirstWith(stats + [s], StatSignature(s)) == s
  {
    var sigs := Signatures(stats + [s]);
    assert sigs == Signatures(stats) + [StatSignature(s)];
    assert sigs[..|stats|] == Signatures(stats);
    forall sig | sig in Signatures(stats)
      ensures FirstWith(stats + [s], sig) == FirstWith(stats, sig)
    {
      FirstIndexPrefix(sigs, |stats|, sig);
    }
  }

  /** The state of the loop of lines 37-46 after the statistics `seen`. */
  ghost predicate Collected(seen: seq<Stat>, sigs: seq<string>, templates: map<string, Stat>) {
    && sigs == Dedup(Signatures(seen))
    && KeysAre(templates, sigs)
    && TemplatesFirst(seen, sigs, templates)
  }

  ghost predicate KeysAre(templates: map<string, Stat>, sigs: seq<string>) {
    forall sig :: sig in templates <==> sig in sigs
  }

  ghost predicate TemplatesFirst(seen: seq<Stat>, sigs: seq<string>, templates: map<string, Stat>) {
    forall sig | sig in sigs :: sig in Signatures(seen) && sig in templates && templates[sig] == FirstWith(seen, sig)
  }

  lemma CollectStep(seen: seq<Stat>, sigs: seq<string>, templates: map<string, Stat>, s: Stat)
    requires Collected(seen, sigs, templates)
    ensures var sig := StatSignature(s);
      if sig in templates then Collected(seen + [s], sigs, templates)
      else Collected(seen + [s], sigs + [sig], templates[sig := s])
  {
    var sig := StatSignature(s);
    SignaturesSnoc(seen, s);
    DedupSnoc(Signatures(seen), sig);
    if sig in templates {
      assert sig in Dedup(Signatures(seen));
      TemplatesKnown(seen, sigs, templates, s);
    } else {
      assert sig !in Signatures(seen);
      TemplatesNew(seen, sigs, templates, s);
      KeysNew(templates, sigs, sig, s);
    }
  }

  lemma TemplatesKnown(seen: seq<Stat>, sigs: seq<string>, templates: map<string, Stat>, s: Stat)
    requires Signatures(seen + [s]) == Signatures(seen) + [StatSignature(s)]
    requires TemplatesFirst(seen, sigs, templates)
    requires forall sig | sig in Signatures(seen) :: FirstWith(seen + [s], sig) == FirstWith(seen, sig)
    ensures TemplatesFirst(seen + [s], sigs, templates)
  {
    forall x | x in sigs
      ensures x in Signatures(seen + [s]) && x in templates && templates[x] == FirstWith(seen + [s], x)
    {
      assert x in Signatures(seen);
    }
  }

  lemma TemplatesNew(seen: seq<Stat>, sigs: seq<string>, templates: map<string, Stat>, s: Stat)
    requires Signatures(seen + [s]) == Signatures(seen) + [StatSignature(s)]
    requires TemplatesFirst(seen, sigs, templates)
    requires StatSignature(s) !in Signatures(seen)
    requires forall sig | sig in Signatures(seen) :: FirstWith(seen + [s], sig) == FirstWith(seen, sig)
    requires FirstWith(seen + [s], StatSignature(s)) == s
    ensures TemplatesFirst(seen + [s], sigs + [StatSignature(s)], templates[StatSignature(s) := s])
  {
    var sig := StatSignature(s);
    var templates' := templates[sig := s];
    forall x | x in sigs + [sig]
      ensures x in Signatures(seen + [s]) && x in templates' && templates'[x] == FirstWith(seen + [s], x)
    {
      if x != sig {
        assert x in sigs;
        assert x in Signatures(seen);
      }
    }
  }

  lemma KeysNew(templates: map<string, Stat>, sigs: seq<string>, sig: string, s: Stat)
    requires KeysAre(templates, sigs)
    ensures KeysAre(templates[sig := s], sigs + [sig])
  {
  }

  /** One step of the reducer: a statistic whose signature is new is added with itself as template. */
  function AddStat(acc: (seq<string>, map<string, Stat>), s: Stat): (seq<string>, map<string, Stat>) {
    var sig := StatSignature(s);
    if sig in acc.1 then acc else (acc.0 + [sig], acc.1[sig := s])
  }

  /** The reducer's accumulator after the statistics `seen`, in order. */
  function Collect(seen: seq<Stat>): (seq<string>, map<string, Stat>)
    decreases |seen|
  {
    if seen == [] then ([], map[]) else AddStat(Collect(seen[..|seen| - 1]), seen[|seen| - 1])
  }

  lemma CollectSnoc(seen: seq<Stat>, s: Stat)
    ensures Collect(seen + [s]) == AddStat(Collect(seen), s)
  {
    assert (seen + [s])[..|seen + [s]| - 1] == seen;
  }

  lemma CollectNext(seen: seq<Stat>, stats: seq<Stat>, j: nat)
    requires j < |stats|
    ensures Collect(seen + stats[..j + 1]) == AddStat(Collect(seen + stats[..j]), stats[j])
  {
    assert seen + stats[..j + 1] == (seen + stats[..j]) + [stats[j]];
    CollectSnoc(seen + stats[..j], stats[j]);
  }

  /**
   * The accumulator lists the distinct signatures in first-seen order, is
   * keyed by exactly those, and holds the first statistic of each.
   */
  lemma {:induction false} CollectIsCollected(seen: seq<Stat>)
    ensures Collected(seen, Collect(seen).0, Collect(seen).1)
    decreases |seen|
  {
    if seen == [] {
      assert Signatures(seen) == [];
    } else {
      var front := seen[..|seen| - 1];
      var s := seen[|seen| - 1];
      var acc := Collect(front);
      assert seen == front + [s];
      CollectIsCollected(front);
      CollectStep(front, acc.0, acc.1, s);
      CollectSnoc(front, s);
      var sig := StatSignature(s);
      if sig in acc.1 {
        assert Collect(seen) == acc;
      } else {
        assert Collect(seen) == (acc.0 + [sig], acc.1[sig := s]);
      }
    }
  }

  /** The reducer of lines 37-46 on one record: its statistics' new signatures are added with their templates. */
  method AddRecordStats(stats: seq<Stat>, ghost seen: seq<Stat>, sigs0: seq<string>, templates0: map<string, Stat>)
    returns (sigs: seq<string>, templates: map<string, Stat>)
    requires (sigs0, templates0) == Collect(seen)
    ensures (sigs, templates) == Collect(seen + stats)
  {
    sigs, templates := sigs0, templates0;
    assert seen + stats[..0] == seen;
    for j := 0 to |stats|
      invariant (sigs, templates) == Collect(seen + stats[..j])
    {
      var sig := StatSignature(stats[j]);
      CollectNext(seen, stats, j);
      if sig !in templates {
        templates := templates[sig := stats[j]];
        sigs := sigs + [sig];
      }
    }
    assert stats[..|stats|] == stats;
  }

  /** Lines 37-46: the signatures in first-seen order, each with the first statistic that carried it. */
  method CollectUniqueStats(data: seq<BenchmarkData>) returns (sigs: seq<string>, templates: map<string, Stat>)
    ensures sigs == UniqueSignatures(data)
    ensures forall sig :: sig in templates <==> sig in sigs
    ensures forall sig | sig in sigs :: sig in Signatures(AllStats(data)) && templates[sig] == FirstWith(AllStats(data), sig)
  {
    sigs := [];
    templates := map[];
    for i := 0 to |data|
      invariant (sigs, templates) == Collect(AllStats(data[..i]))
    {
      sigs, templates := AddRecordStats(data[i].stats, AllStats(data[..i]), sigs, templates);
      assert data[..i + 1][..i] == data[..i];
    }
    assert data[..|data|] == data;
    CollectIsCollected(AllStats(data));
  }

  /** `set.add(name)` on a Set kept as its insertion-ordered contents. */
  function AddLabel(labels: seq<string>, name: string): (r: seq<string>)
    ensures name in r
  {
    if name in labels then labels else labels + [name]
  }

  /** `dataMap.get(y).set(x, v)`, creating the row for y first if it is missing. */
  function Store(dataMap: map<string, map<string, real>>, y: string, x: string, v: real): map<string, map<string, real>> {
    var row := if y in dataMap then dataMap[y] else map[];
    dataMap[y := row[x := v]]
  }

  /** The state of the loop of lines 53-75 after the observations `obs`. */
  ghost predicate Pivoted(obs: seq<Observation>, ys: seq<string>, xs: seq<string>, dataMap: map<string, map<string, real>>) {
    && ys == Dedup(YLabels(obs))
    && xs == Dedup(XLabels(obs))
    && forall y, x :: Lookup(dataMap, y, x) == Cell(obs, y, x)
  }

  lemma PivotStep(obs: seq<Observation>, ys: seq<string>, xs: seq<string>, dataMap: map<string, map<string, real>>, o: Observation)
    requires Pivoted(obs, ys, xs, dataMap)
    ensures Pivoted(obs + [o], AddLabel(ys, o.yAxis), AddLabel(xs, o.xAxis), Store(dataMap, o.yAxis, o.xAxis, o.value))
  {
    PivotLabels(obs, o);
    PivotCells(obs, dataMap, o);
  }

  /** Adding an observation adds its labels as `AddLabel` does. */
  lemma PivotLabels(obs: seq<Observation>, o: Observation)
    ensures Dedup(YLabels(obs + [o])) == AddLabel(Dedup(YLabels(obs)), o.yAxis)
    ensures Dedup(XLabels(obs + [o])) == AddLabel(Dedup(XLabels(obs)), o.xAxis)
  {
    assert YLabels(obs + [o]) == YLabels(obs) + [o.yAxis];
    assert XLabels(obs + [o]) == XLabels(obs) + [o.xAxis];
    DedupSnoc(YLabels(obs), o.yAxis);
    DedupSnoc(XLabels(obs), o.xAxis);
  }

  /** Storing an observation's value makes the map agree with the cells of the longer sequence. */
  lemma PivotCells(obs: seq<Observation>, dataMap: map<string, map<string, real>>, o: Observation)
    requires forall y, x :: Lookup(dataMap, y, x) == Cell(obs, y, x)
    ensures forall y, x :: Lookup(Store(dataMap, o.yAxis, o.xAxis, o.value), y, x) == Cell(obs + [o], y, x)
  {
    var obs' := obs + [o];
    assert obs'[..|obs|] == obs;
    var dataMap' := Store(dataMap, o.yAxis, o.xAxis, o.value);
    forall y, x
      ensures Lookup(dataMap', y, x) == Cell(obs', y, x)
    {
      if y == o.yAxis && x == o.xAxis {
        assert Lookup(dataMap', y, x) == Some(o.value);
      } else {
        assert Lookup(dataMap', y, x) == Lookup(dataMap, y, x);
      }
    }
  }

  lemma ObservationsSnoc(data: seq<BenchmarkData>, i: nat, sig: string)
    requires i < |data|
    ensures Observations(data[..i + 1], sig) == Observations(data[..i], sig) + ObservationOf(data[i], sig)
  {
    assert data[..i + 1][..i] == data[..i];
  }

  /**
   * The loop of lines 53-75 for one signature: the y and x labels in
   * first-seen order and the nested map of values, a later record at the same
   * (y, x) overwriting an earlier one.
   */
  method PivotSignature(data: seq<BenchmarkData>, sig: string)
    returns (ys: seq<string>, xs: seq<string>, dataMap: map<string, map<string, real>>)
    ensures ys == Dedup(YLabels(Observations(data, sig)))
    ensures xs == Dedup(XLabels(Observations(data, sig)))
    ensures forall y, x :: Lookup(dataMap, y, x) == Cell(Observations(data, sig), y, x)
  {
    ys := [];
    xs := [];
    dataMap := map[];
    assert data[..0] == [];
    for i := 0 to |data|
      invariant Pivoted(Observations(data[..i], sig), ys, xs, dataMap)
    {
      var r := data[i];
      var value := MatchingValue(r.stats, sig);
      ObservationsSnoc(data, i, sig);
      if value.Some? {
        var o := Observation(r.yAxis, r.xAxis, value.value);
        assert ObservationOf(r, sig) == [o];
        PivotStep(Observations(data[..i], sig), ys, xs, dataMap, o);
        ys := AddLabel(ys, r.yAxis);
        xs := AddLabel(xs, r.xAxis);
        dataMap := Store(dataMap, r.yAxis, r.xAxis, value.value);
      } else {
        assert ObservationOf(r, sig) == [];
        assert Observations(data[..i + 1], sig) == Observations(data[..i], sig);
      }
    }
    assert data[..|data|] == data;
  }

  /** Lines 81-85: one series per x label, its values aligned to the y labels, 0 where the map has nothing. */
  function BuildSeries(xs: seq<string>, ys: seq<string>, dataMap: map<string, map<string, real>>, benchmarkId: string)
    : (series: seq<SeriesData>)
    ensures |series| == |xs|
    ensures forall k :: 0 <= k < |xs| ==> series[k].xAxis == xs[k] && |series[k].values| == |ys|
  {
    seq(|xs|, k requires 0 <= k < |xs| =>
      SeriesData(xs[k], seq(|ys|, j requires 0 <= j < |ys| => Lookup(dataMap, ys[j], xs[k]).GetOr(0.0)), benchmarkId))
  }

  /** Built from a map that agrees with the observations, the series are the ones the chart defines. */
  lemma BuildSeriesAgrees(obs: seq<Observation>, ys: seq<string>, xs: seq<string>, dataMap: map<string, map<string, real>>, benchmarkId: string)
    requires forall y, x :: Lookup(dataMap, y, x) == Cell(obs, y, x)
    ensures BuildSeries(xs, ys, dataMap, benchmarkId) == SeriesOf(obs, ys, xs, benchmarkId)
  {
    var b := BuildSeries(xs, ys, dataMap, benchmarkId);
    var t := SeriesOf(obs, ys, xs, benchmarkId);
    forall k | 0 <= k < |xs|
      ensures b[k] == t[k]
    {
      assert b[k].values == Row(obs, ys, xs[k]);
    }
  }

  /** `useChartData(results)`: the charts of the input, built by the two loops above. */
  method UseChartData(data: seq<BenchmarkData>) returns (charts: seq<ChartData>)
    ensures charts == Charts(data)
  {
    if data == [] {
      return [];
    }
    var sigs, templates := CollectUniqueStats(data);
    charts := [];
    ghost var all := Charts(data);
    assert |all| == |sigs|;
    for i := 0 to |sigs|
      invariant charts == all[..i]
    {
      var ys, xs, dataMap := PivotSignature(data, sigs[i]);
      var template := templates[sigs[i]];
      var series := BuildSeries(xs, ys, dataMap, BenchmarkId(data));
      BuildSeriesAgrees(Observations(data, sigs[i]), ys, xs, dataMap, BenchmarkId(data));
      var chart := ChartData(ChartTitle(template), template.statType, template.unit, ys, series);
      assert sigs[i] in sigs;
      assert template == FirstWith(AllStats(data), sigs[i]);
      assert chart == PivotChart(data, sigs[i], template) == all[i];
      TakeSnoc(all, i);
      charts := charts + [chart];
    }
    assert all[..|sigs|] == all;
  }

  /**
   * The value at (y, x) is the one of the last observation there, and there
   * is none exactly when nothing was observed at (y, x).
   */
  lemma {:induction false} CellIsLastWrite(obs: seq<Observation>, y: string, x: string)
    ensures Cell(obs, y, x).None? <==> forall k | 0 <= k < |obs| :: !(obs[k].yAxis == y && obs[k].xAxis == x)
    ensures Cell(obs, y, x).Some? ==> exists k | 0 <= k < |obs| ::
      obs[k] == Observation(y, x, Cell(obs, y, x).value) &&
      forall m | k < m < |obs| :: !(obs[m].yAxis == y && obs[m].xAxis == x)
  {
    if obs != [] {
      var n := |obs| - 1;
      var front := obs[..n];
      CellIsLastWrite(front, y, x);
      var c := Cell(obs, y, x);
      if obs[n].yAxis == y && obs[n].xAxis == x {
        assert c == Some(obs[n].value);
        assert obs[n] == Observation(y, x, c.value);
      } else {
        assert c == Cell(front, y, x);
        assert forall k | 0 <= k < n :: obs[k] == front[k];
        if c.Some? {
          var k :| 0 <= k < |front| && front[k] == Observation(y, x, c.value) &&
            forall m | k < m < |front| :: !(front[m].yAxis == y && front[m].xAxis == x);
          assert obs[k] == front[k];
        }
      }
    }
  }

  lemma {:induction false} ObservationsAppend(a: seq<BenchmarkData>, b: seq<BenchmarkData>, sig: string)
    ensures Observations(a + b, sig) == Observations(a, sig) + Observations(b, sig)
    decreases |b|
  {
    if b == [] {
      assert a + b == a;
    } else {
      var b' := b[..|b| - 1];
      assert (a + b)[..|a + b| - 1] == a + b';
      ObservationsAppend(a, b', sig);
    }
  }

  /**
   * A record with no value for a signature is skipped for that signature
   * only: removing it leaves that signature's observations, and therefore its
   * chart, unchanged.
   */
  lemma {:induction false} RecordWithoutValueIsSkipped(data: seq<BenchmarkData>, i: nat, sig: string)
    requires i < |data| && MatchingValue(data[i].stats, sig).None?
    ensures Observations(data[..i] + data[i + 1..], sig) == Observations(data, sig)
  {
    var pre, mid, post := data[..i], [data[i]], data[i + 1..];
    assert data == (pre + mid) + post;
    ObservationsAppend(pre + mid, post, sig);
    ObservationsAppend(pre, mid, sig);
    ObservationsAppend(pre, post, sig);
    assert mid[..0] == [];
    assert Observations(mid, sig) == [];
    assert Observations(pre + mid, sig) == Observations(pre, sig);
  }

  /** Every series of a chart has one value per y label, and the x labels and y labels are distinct. */
  lemma ChartShape(data: seq<BenchmarkData>, sig: string, template: Stat)
    ensures var c := PivotChart(data, sig, template);
      && Distinct(c.yAxis)
      && |c.series| == |Dedup(XLabels(Observations(data, sig)))|
      && (forall k :: 0 <= k < |c.series| ==> |c.series[k].values| == |c.yAxis|)
      && (forall k, m :: 0 <= k < m < |c.series| ==> c.series[k].xAxis != c.series[m].xAxis)
  {
  }

  /**
   * Nothing observed is lost: the last value observed at any (y, x) appears
   * in the chart, in the series of x at the position of y; a (y, x) of the
   * domains where nothing was observed shows 0.
   */
  lemma {:induction false} ObservedValueIsCharted(data: seq<BenchmarkData>, sig: string, template: Stat, k: nat)
    requires k < |Observations(data, sig)|
    requires var obs := Observations(data, sig);
      forall m | k < m < |obs| :: !(obs[m].yAxis == obs[k].yAxis && obs[m].xAxis == obs[k].xAxis)
    ensures var c := PivotChart(data, sig, template); var o := Observations(data, sig)[k];
      exists a, b | 0 <= a < |c.series| && 0 <= b < |c.yAxis| ::
        c.series[a].xAxis == o.xAxis && c.yAxis[b] == o.yAxis && c.series[a].values[b] == o.value
  {
    var obs := Observations(data, sig);
    var o := obs[k];
    var c := PivotChart(data, sig, template);
    CellIsLastWrite(obs, o.yAxis, o.xAxis);
    assert Cell(obs, o.yAxis, o.xAxis) == Some(o.value) by {
      var j :| 0 <= j < |obs| && obs[j] == Observation(o.yAxis, o.xAxis, Cell(obs, o.yAxis, o.xAxis).value) &&
        forall m | j < m < |obs| :: !(obs[m].yAxis == o.yAxis && obs[m].xAxis == o.xAxis);
      assert j == k;
    }
    assert o.yAxis == YLabels(obs)[k] && o.xAxis == XLabels(obs)[k];
    var b := FirstIndex(c.yAxis, o.yAxis);
    var a := FirstIndex(Dedup(XLabels(obs)), o.xAxis);
    assert c.series[a].values[b] == CellValue(obs, o.yAxis, o.xAxis);
  }

  /** Inside the domains, a (y, x) pair with no observation shows 0. */
  lemma UnobservedCellIsZero(data: seq<BenchmarkData>, sig: string, template: Stat, a: nat, b: nat)
    requires a < |PivotChart(data, sig, template).series| && b < |PivotChart(data, sig, template).yAxis|
    requires forall m | 0 <= m < |Observations(data, sig)| ::
      !(Observations(data, sig)[m].yAxis == PivotChart(data, sig, template).yAxis[b] &&
        Observations(data, sig)[m].xAxis == PivotChart(data, sig, template).series[a].xAxis)
    ensures PivotChart(data, sig, template).series[a].values[b] == 0.0
  {
    var obs := Observations(data, sig);
    var ys := Dedup(YLabels(obs));
    var xs := Dedup(XLabels(obs));
    var c := PivotChart(data, sig, template);
    UnobservedRowEntry(obs, c.yAxis, c.series[a].xAxis, b);
    assert c.series[a] == SeriesData(xs[a], Row(obs, ys, xs[a]), BenchmarkId(data));
  }

  lemma UnobservedRowEntry(obs: seq<Observation>, ys: seq<string>, x: string, b: nat)
    requires b < |ys|
    requires forall m | 0 <= m < |obs| :: !(obs[m].yAxis == ys[b] && obs[m].xAxis == x)
    ensures Row(obs, ys, x)[b] == 0.0
  {
    CellIsLastWrite(obs, ys[b], x);
  }

  /**
   * One chart per distinct signature, in order of first appearance, each
   * titled and typed after the first statistic with its signature; empty
   * input gives no charts.
   */
  lemma {:induction false} ChartsPerSignature(data: seq<BenchmarkData>, i: nat, j: nat)
    requires data != [] && i < j < |Charts(data)|
    ensures |Charts(data)| == |UniqueSignatures(data)|
    ensures var sigs := UniqueSignatures(data); var t := FirstWith(AllStats(data), sigs[i]);
      sigs[i] != sigs[j] &&
      Charts(data)[i].title == ChartTitle(t) && Charts(data)[i].statType == t.statType &&
      StatSignature(t) == sigs[i]
    ensures var s := Signatures(AllStats(data)); var sigs := UniqueSignatures(data);
      FirstIndex(s, sigs[i]) < FirstIndex(s, sigs[j])
  {
    var s := Signatures(AllStats(data));
    DedupFirstSeenOrder(s, i, j);
  }

  lemma EmptyInputGivesNoCharts()
    ensures Charts([]) == []
  {
  }
}
