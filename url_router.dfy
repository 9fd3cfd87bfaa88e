/**
 * Keeping the page state and the URL query in step (composables/useUrlRouter.ts).
 * On load the query parameters are applied to the selection and the settings
 * store, each behind its own guard; afterwards every state change rewrites
 * the query from the state, leaving out whatever is at its default.
 *
 * The browser's URLSearchParams is not modelled: the parameters arrive as a
 * `UrlParams` value, and the query string's per-component encoding is a
 * parameter `encode` of the serialiser.
 */
module UrlRouter {
  import opened Wrappers
  import opened Text
  import opened SeqUtil
  import opened ChartTypes
  import Common
  import SettingsStore
  import Benchmarks

  /** The query parameters the router reads; None is an absent parameter. */
  datatype UrlParams = UrlParams(s: Option<string>, l: Option<string>, c: Option<string>, b: Option<string>, g: Option<string>)

  // ---------------------------------------------------------------------------
  // Index parameters (benchmark and group ids)

  /**
   * `applyIndexParam`: the id the setter is called with, if any. The value is
   * read with `parseInt(value, 10)` and used only when it is a number in
   * [0, maxLength); an absent parameter does nothing.
   */
  function IndexParam(value: Option<string>, maxLength: int): (id: Option<nat>)
    ensures value.None? ==> id.None?
    ensures id.Some? <==> value.Some? && ParseIntJs(value.value).Some? && 0 <= ParseIntJs(value.value).value < maxLength
    ensures id.Some? ==> id.value == ParseIntJs(value.value).value && id.value < maxLength
  {
    if value.None? then None
    else
      match ParseIntJs(value.value)
      case None => None
      case Some(n) => if 0 <= n < maxLength then Some(n) else None
  }

  lemma {:induction false} DigitsValueOfNatToString(n: nat)
    ensures DigitsValue(NatToString(n)) == n
    decreases n
  {
    if n >= 10 {
      var front := NatToString(n / 10);
      var s := front + [('0' as int + n % 10) as char];
      assert s[..|s| - 1] == front;
      DigitsValueOfNatToString(n / 10);
    }
  }

  lemma {:induction false} DigitPrefixOfDigits(s: string)
    requires forall i :: 0 <= i < |s| ==> IsDigit(s[i])
    ensures DigitPrefix(s) == s
    decreases |s|
  {
    if s != [] {
      DigitPrefixOfDigits(s[1..]);
    }
  }

  /**
   * An id the router writes (`id.toString()`) reads back, through
   * `parseInt(value, 10)`, as the same id: every index the state can hold
   * survives the trip through the URL.
   */
  lemma IndexRoundTrip(id: nat, maxLength: int)
    requires id < maxLength
    ensures ParseIntJs(NatToString(id)) == Some(id)
    ensures IndexParam(Some(NatToString(id)), maxLength) == Some(id)
  {
    var s := NatToString(id);
    assert !IsJsSpace(s[0]) by {
      assert IsDigit(s[0]);
    }
    assert DropJsSpaces(s) == s;
    DigitPrefixOfDigits(s);
    DigitsValueOfNatToString(id);
  }

  // ---------------------------------------------------------------------------
  // Settings parameters

  /**
   * The sort directive a sort parameter applies, as written: the value is
   * checked lower-cased against "asc" and "desc" but stored as it came.
   */
  function SortParamAsWritten(s: Option<string>): (r: Option<Sort>)
    ensures r.Some? <==> s.Some? && s.value != "" && AsciiLower(s.value) in ["asc", "desc"]
    ensures r.Some? ==> r.value == Sort(true, s.value)
  {
    if s.Some? && s.value != "" && AsciiLower(s.value) in ["asc", "desc"] then Some(Sort(true, s.value)) else None
  }

  /**
   * As written, `s=ASC` passes the guard and enables sorting, but the
   * comparators test the stored order against "asc" exactly, so the series
   * come out in descending order.
   */
  lemma SortParamAsWrittenReverses()
    ensures SortParamAsWritten(Some("ASC")) == Some(Sort(true, "ASC"))
    ensures Common.CompareBy(SortParamAsWritten(Some("ASC")).value.order, 1.0, 2.0) > 0.0
  {
    assert AsciiLower("ASC") == "asc";
  }

  /** The sort directive a sort parameter applies: the accepted value in the lower case the comparators test for. */
  function SortParam(s: Option<string>): (r: Option<Sort>)
    ensures r.Some? <==> s.Some? && s.value != "" && AsciiLower(s.value) in ["asc", "desc"]
    ensures r.Some? ==> r.value.enabled && r.value.order in ["asc", "desc"]
  {
    if s.Some? && s.value != "" && AsciiLower(s.value) in ["asc", "desc"] then Some(Sort(true, AsciiLower(s.value))) else None
  }

  /**
   * The corrected guard sorts in the direction the parameter names, whatever
   * its case: ascending exactly when the parameter reads "asc".
   */
  lemma SortParamFollowsDirection(s: string, a: real, b: real)
    requires SortParam(Some(s)).Some? && a < b
    ensures Common.CompareBy(SortParam(Some(s)).value.order, a, b) < 0.0 <==> AsciiLower(s) == "asc"
  {
  }

  /** The label flag a labels parameter applies: only "true" or "false", in any case. */
  function LabelsParam(l: Option<string>): (r: Option<bool>)
    ensures r.Some? <==> l.Some? && AsciiLower(l.value) in ["true", "false"]
    ensures r.Some? ==> r.value == (AsciiLower(l.value) == "true")
  {
    if l.None? then None
    else if AsciiLower(l.value) == "true" then Some(true)
    else if AsciiLower(l.value) == "false" then Some(false)
    else None
  }

  /** The chart type a chart parameter asks for: only one of the default types, matched exactly. */
  function ChartParam(c: Option<string>): (r: Option<string>)
    ensures r.Some? <==> c.Some? && c.value != "" && c.value in SettingsStore.DefaultCharts
    ensures r.Some? ==> r.value == c.value && SettingsStore.IsAllowed(r.value)
  {
    if c.Some? && c.value != "" && c.value in SettingsStore.DefaultCharts then c else None
  }

  /**
   * The first half of `applyParams`: the benchmark (which may reset the
   * settings to the benchmark's own), then the group within it.
   */
  method ApplySelection(sel: Benchmarks.Selection, params: UrlParams)
    requires sel.store.Valid()
    modifies sel, sel.store, sel.colors
    ensures sel.store.Valid()
    ensures sel.benchmarks == old(sel.benchmarks)
    ensures var b := IndexParam(params.b, |old(sel.benchmarks)|);
      sel.activeBenchmarkId == if b.Some? then b.value else old(sel.activeBenchmarkId)
    ensures var g := IndexParam(params.g, |sel.Groups()|);
      var b := IndexParam(params.b, |old(sel.benchmarks)|);
      sel.activeGroupId == if g.Some? then g.value else if b.Some? then 0 else old(sel.activeGroupId)
    ensures var b := IndexParam(params.b, |old(sel.benchmarks)|);
      b.None? || sel.benchmarks[b.value].settings.None? ==>
      sel.store.charts == old(sel.store.charts) && sel.store.activeChartIndex == old(sel.store.activeChartIndex)
      && sel.store.sort == old(sel.store.sort) && sel.store.showLabels == old(sel.store.showLabels)
    ensures var b := IndexParam(params.b, |old(sel.benchmarks)|);
      b.Some? && sel.benchmarks[b.value].settings.Some? ==>
      var s := sel.benchmarks[b.value].settings.value;
      sel.store.charts == SettingsStore.ChartsFor(s.charts.GetOr(SettingsStore.DefaultCharts)) && sel.store.activeChartIndex == 0
      && sel.store.sort == s.sort && sel.store.showLabels == s.showLabels
  {
    var b := IndexParam(params.b, |sel.benchmarks|);
    if b.Some? {
      sel.SelectBenchmark(b.value);
    }
    var g := IndexParam(params.g, |sel.Groups()|);
    if g.Some? {
      sel.SelectGroup(g.value);
    }
  }

  /**
   * The second half of `applyParams`: sort, labels and chart type applied on
   * top of whatever the selection left; each parameter that fails its guard
   * leaves its setting as it was.
   */
  method ApplySettings(store: SettingsStore.Store, params: UrlParams)
    requires store.Valid()
    modifies store
    ensures store.Valid()
    ensures store.sort == if SortParamAsWritten(params.s).Some? then SortParamAsWritten(params.s).value else old(store.sort)
    ensures store.showLabels == if LabelsParam(params.l).Some? then LabelsParam(params.l).value else old(store.showLabels)
    ensures store.charts == old(store.charts)
    ensures ChartParam(params.c).Some? && ChartParam(params.c).value in store.charts ==>
      store.ChartType() == ChartParam(params.c).value && ChartParam(params.c).value !in store.charts[..store.activeChartIndex]
    ensures !(ChartParam(params.c).Some? && ChartParam(params.c).value in store.charts) ==>
      store.activeChartIndex == old(store.activeChartIndex)
    ensures store.swapIndex == old(store.swapIndex) && store.initialized == old(store.initialized)
  {
    var s := SortParamAsWritten(params.s);
    if s.Some? {
      store.SetSort(s.value);
    }
    var l := LabelsParam(params.l);
    if l.Some? {
      store.SetShowLabels(l.value);
    }
    var c := ChartParam(params.c);
    if c.Some? {
      store.SetChartType(c.value);
    }
  }

  /** `applyParams`: the selection first, then the settings on top of it. */
  method ApplyParams(sel: Benchmarks.Selection, params: UrlParams)
    requires sel.store.Valid()
    modifies sel, sel.store, sel.colors
    ensures sel.store.Valid()
    ensures sel.benchmarks == old(sel.benchmarks)
    ensures var b := IndexParam(params.b, |old(sel.benchmarks)|);
      sel.activeBenchmarkId == if b.Some? then b.value else old(sel.activeBenchmarkId)
    ensures var g := IndexParam(params.g, |sel.Groups()|);
      var b := IndexParam(params.b, |old(sel.benchmarks)|);
      sel.activeGroupId == if g.Some? then g.value else if b.Some? then 0 else old(sel.activeGroupId)
    ensures SortParamAsWritten(params.s).Some? ==> sel.store.sort == SortParamAsWritten(params.s).value
    ensures LabelsParam(params.l).Some? ==> sel.store.showLabels == LabelsParam(params.l).value
    ensures ChartParam(params.c).Some? && ChartParam(params.c).value in sel.store.charts ==>
      sel.store.ChartType() == ChartParam(params.c).value
    ensures var b := IndexParam(params.b, |old(sel.benchmarks)|);
      b.None? || sel.benchmarks[b.value].settings.None? ==>
      sel.store.charts == old(sel.store.charts)
      && (SortParamAsWritten(params.s).None? ==> sel.store.sort == old(sel.store.sort))
      && (LabelsParam(params.l).None? ==> sel.store.showLabels == old(sel.store.showLabels))
      && (!(ChartParam(params.c).Some? && ChartParam(params.c).value in sel.store.charts) ==>
            sel.store.activeChartIndex == old(sel.store.activeChartIndex))
    ensures var b := IndexParam(params.b, |old(sel.benchmarks)|);
      b.Some? && sel.benchmarks[b.value].settings.Some? ==>
      var s := sel.benchmarks[b.value].settings.value;
      sel.store.charts == SettingsStore.ChartsFor(s.charts.GetOr(SettingsStore.DefaultCharts))
      && (SortParamAsWritten(params.s).None? ==> sel.store.sort == s.sort)
      && (LabelsParam(params.l).None? ==> sel.store.showLabels == s.showLabels)
      && (!(ChartParam(params.c).Some? && ChartParam(params.c).value in sel.store.charts) ==> sel.store.activeChartIndex == 0)
  {
    ApplySelection(sel, params);
    ApplySettings(sel.store, params);
  }

  // ---------------------------------------------------------------------------
  // Writing the state back

  /** One entry of the record handed to the serialiser; None is `undefined`. */
  datatype Param = Param(key: string, value: Option<string>)

  function Keys(params: seq<Param>): (keys: seq<string>)
    ensures |keys| == |params|
    ensures forall i :: 0 <= i < |params| ==> keys[i] == params[i].key
  {
    if params == [] then [] else Keys(params[..|params| - 1]) + [params[|params| - 1].key]
  }

  predicate IsSet(p: Param) {
    p.value.Some? && p.value.value != ""
  }

  /** The entries the serialiser keeps, as key/value pairs in record order. */
  function Kept(params: seq<Param>): (pairs: seq<(string, string)>)
    ensures |pairs| <= |params|
    ensures forall i :: 0 <= i < |pairs| ==> pairs[i].1 != ""
    ensures pairs == [] <==> forall i :: 0 <= i < |params| ==> !IsSet(params[i])
  {
    if params == [] then []
    else
      var p := params[|params| - 1];
      Kept(params[..|params| - 1]) + if IsSet(p) then [(p.key, p.value.value)] else []
  }

  /** `key=value` pairs joined with `&`, each component encoded. */
  function Render(pairs: seq<(string, string)>, encode: string -> string): string {
    if pairs == [] then ""
    else
      var item := encode(pairs[0].0) + "=" + encode(pairs[0].1);
      if |pairs| == 1 then item else item + "&" + Render(pairs[1..], encode)
  }

  /** The query string the router writes: "?" and the rendered pairs, or "" when nothing is kept. */
  function QueryString(params: seq<Param>, encode: string -> string): (q: string)
    ensures q == "" <==> Kept(params) == []
    ensures q != "" ==> q[0] == '?'
  {
    var pairs := Kept(params);
    if pairs == [] then "" else "?" + Render(pairs, encode)
  }

  /**
   * `buildQueryString`: the loop setting every entry with a value that is
   * neither undefined nor empty. The keys of a record are distinct, so each
   * `set` adds a new entry at the end.
   */
  method BuildQueryString(params: seq<Param>, encode: string -> string) returns (q: string)
    requires Distinct(Keys(params))
    ensures q == QueryString(params, encode)
  {
    var entries: seq<(string, string)> := [];
    for i := 0 to |params|
      invariant entries == Kept(params[..i])
    {
      TakeSnoc(params, i);
      assert params[..i + 1][..i] == params[..i];
      if params[i].value.Some? && params[i].value.value != "" {
        entries := entries + [(params[i].key, params[i].value.value)];
      }
    }
    assert params[..|params|] == params;
    var queryString := Render(entries, encode);
    if entries != [] {
      q := "?" + queryString;
    } else {
      q := "";
    }
  }

  /** The state the router writes to the URL. */
  datatype PageState = PageState(sort: Sort, showLabels: bool, charts: seq<string>, activeChartIndex: int, benchmarkId: int, groupId: int)

  /**
   * `syncUrlToState`'s record: the sort order only when sorting is on, labels
   * only when shown, the chart type only when it is not the first, and the
   * benchmark and group ids only when positive.
   */
  function StateParams(st: PageState): (params: seq<Param>)
    ensures Keys(params) == ["s", "l", "c", "b", "g"]
  {
    var chartType := if 0 <= st.activeChartIndex < |st.charts| then Some(st.charts[st.activeChartIndex]) else None;
    [ Param("s", if st.sort.enabled then Some(st.sort.order) else None),
      Param("l", if st.showLabels then Some("true") else None),
      Param("c", if chartType.Some? && chartType.value != "" && st.activeChartIndex != 0 then chartType else None),
      Param("b", if st.benchmarkId > 0 then Some(NatToString(st.benchmarkId)) else None),
      Param("g", if st.groupId > 0 then Some(NatToString(st.groupId)) else None) ]
  }

  /** The query string for a state; the browser's URL changes only when it differs from the current one. */
  function StateQuery(st: PageState, encode: string -> string): string {
    QueryString(StateParams(st), encode)
  }

  /**
   * A state at all its defaults (sorting off, labels hidden, the first chart,
   * the first benchmark and group) writes the bare path; any departure from
   * them writes a query.
   */
  lemma DefaultStateHasNoQuery(st: PageState, encode: string -> string)
    requires forall i :: 0 <= i < |st.charts| ==> st.charts[i] != ""
    ensures StateQuery(st, encode) == "" <==>
      (!st.sort.enabled || st.sort.order == "") && !st.showLabels
      && (st.activeChartIndex == 0 || !(0 <= st.activeChartIndex < |st.charts|))
      && st.benchmarkId <= 0 && st.groupId <= 0
  {
    var params := StateParams(st);
    assert IsSet(params[0]) <==> st.sort.enabled && st.sort.order != "";
    assert IsSet(params[1]) <==> st.showLabels;
    assert IsSet(params[2]) <==> st.activeChartIndex != 0 && 0 <= st.activeChartIndex < |st.charts|;
    assert IsSet(params[3]) <==> st.benchmarkId > 0;
    assert IsSet(params[4]) <==> st.groupId > 0;
  }

  // ---------------------------------------------------------------------------
  // Reading a query string back

  /** The pieces of `s` between occurrences of `sep`. */
  function SplitOn(s: string, sep: char): (parts: seq<string>)
    ensures |parts| >= 1
    ensures forall i :: 0 <= i < |parts| ==> sep !in parts[i]
  {
    match IndexOf(s, sep)
    case None => [s]
    case Some(k) => [s[..k]] + SplitOn(s[k + 1..], sep)
  }

  /** The pieces joined back with `sep`. */
  function JoinWith(parts: seq<string>, sep: char): string
    requires |parts| >= 1
  {
    if |parts| == 1 then parts[0] else parts[0] + [sep] + JoinWith(parts[1..], sep)
  }

  /** Splitting undoes joining when no piece holds the separator. */
  lemma {:induction false} SplitJoin(parts: seq<string>, sep: char)
    requires |parts| >= 1
    requires forall i :: 0 <= i < |parts| ==> sep !in parts[i]
    ensures SplitOn(JoinWith(parts, sep), sep) == parts
    decreases |parts|
  {
    var s := JoinWith(parts, sep);
    if |parts| == 1 {
      assert IndexOf(s, sep).None?;
    } else {
      var rest := JoinWith(parts[1..], sep);
      assert s == parts[0] + [sep] + rest;
      assert s[|parts[0]|] == sep;
      assert s[..|parts[0]|] == parts[0];
      var k := IndexOf(s, sep).value;
      assert forall j :: 0 <= j < k ==> s[..k][j] == s[j];
      assert forall j :: 0 <= j < |parts[0]| ==> s[j] == parts[0][j];
      assert k == |parts[0]|;
      assert s[|parts[0]| + 1..] == rest;
      SplitJoin(parts[1..], sep);
    }
  }

  /** Rendered pairs, as the pieces between the `&`s. */
  function Items(pairs: seq<(string, string)>, encode: string -> string): (items: seq<string>)
    ensures |items| == |pairs|
    ensures forall i :: 0 <= i < |pairs| ==> items[i] == encode(pairs[i].0) + "=" + encode(pairs[i].1)
  {
    if pairs == [] then [] else [encode(pairs[0].0) + "=" + encode(pairs[0].1)] + Items(pairs[1..], encode)
  }

  lemma {:induction false} RenderIsJoin(pairs: seq<(string, string)>, encode: string -> string)
    requires pairs != []
    ensures Render(pairs, encode) == JoinWith(Items(pairs, encode), '&')
    decreases |pairs|
  {
    if |pairs| > 1 {
      RenderIsJoin(pairs[1..], encode);
      assert Items(pairs, encode)[1..] == Items(pairs[1..], encode);
    }
  }

  /** One `key=value` piece: split at its first `=` and decode both sides. */
  function ParseItem(item: string, decode: string -> string): (string, string) {
    match IndexOf(item, '=')
    case None => (decode(item), "")
    case Some(k) => (decode(item[..k]), decode(item[k + 1..]))
  }

  /**
   * Reading a query string as `URLSearchParams` does: drop the leading `?`,
   * split at `&`, skip the empty pieces (those of "a=1&&b=2", or of a
   * leading or trailing `&`), then split each piece at its first `=`.
   */
  function ParseQuery(q: string, decode: string -> string): (pairs: seq<(string, string)>)
    ensures q == "" ==> pairs == []
    ensures |pairs| <= |SplitOn(if q != "" && q[0] == '?' then q[1..] else q, '&')|
  {
    var body := if q != "" && q[0] == '?' then q[1..] else q;
    var items := Filter(SplitOn(body, '&'), IsNonEmpty);
    assert q == "" ==> SplitOn(body, '&') == [""];
    seq(|items|, i requires 0 <= i < |items| => ParseItem(items[i], decode))
  }

  /** The encoder the round trip needs: its output holds neither separator and decoding undoes it. */
  ghost predicate Invertible(encode: string -> string, decode: string -> string) {
    forall v :: '&' !in encode(v) && '=' !in encode(v) && decode(encode(v)) == v
  }

  /**
   * The query the router writes reads back as exactly the entries it kept,
   * with their keys and values, in record order.
   */
  lemma QueryRoundTrip(params: seq<Param>, encode: string -> string, decode: string -> string)
    requires Invertible(encode, decode)
    ensures ParseQuery(QueryString(params, encode), decode) == Kept(params)
  {
    var pairs := Kept(params);
    if pairs != [] {
      RenderedRoundTrip(pairs, encode, decode);
    }
  }

  /** Rendered pairs behind a `?` parse back as the pairs. */
  lemma RenderedRoundTrip(pairs: seq<(string, string)>, encode: string -> string, decode: string -> string)
    requires pairs != [] && Invertible(encode, decode)
    ensures ParseQuery("?" + Render(pairs, encode), decode) == pairs
  {
    var items := Items(pairs, encode);
    RenderSplits(pairs, encode, decode);
    var q := "?" + Render(pairs, encode);
    ParseItems(q, items, decode);
    var parsed := ParseQuery(q, decode);
    forall i | 0 <= i < |pairs| ensures parsed[i] == pairs[i] {
      ItemRoundTrip(pairs[i].0, pairs[i].1, encode, decode);
    }
  }

  /** A query behind a `?` whose non-empty pieces are `items` parses item by item. */
  lemma ParseItems(q: string, items: seq<string>, decode: string -> string)
    requires q != "" && q[0] == '?' && Filter(SplitOn(q[1..], '&'), IsNonEmpty) == items
    ensures |ParseQuery(q, decode)| == |items|
    ensures forall i :: 0 <= i < |items| ==> ParseQuery(q, decode)[i] == ParseItem(items[i], decode)
  {
  }

  /** Rendered pairs split at `&` into their items, none of which is empty. */
  lemma RenderSplits(pairs: seq<(string, string)>, encode: string -> string, decode: string -> string)
    requires pairs != [] && Invertible(encode, decode)
    ensures SplitOn(Render(pairs, encode), '&') == Items(pairs, encode)
    ensures Filter(Items(pairs, encode), IsNonEmpty) == Items(pairs, encode)
    ensures Render(pairs, encode) != ""
  {
    var items := Items(pairs, encode);
    forall i | 0 <= i < |items| ensures '&' !in items[i] && IsNonEmpty(items[i]) {
      assert items[i] == encode(pairs[i].0) + "=" + encode(pairs[i].1);
    }
    FilterAll(items, IsNonEmpty);
    RenderIsJoin(pairs, encode);
    SplitJoin(items, '&');
    assert items[0][|encode(pairs[0].0)|] == '=';
  }

  /** One rendered pair parses back as the pair. */
  lemma ItemRoundTrip(key: string, value: string, encode: string -> string, decode: string -> string)
    requires Invertible(encode, decode)
    ensures ParseItem(encode(key) + "=" + encode(value), decode) == (key, value)
  {
    var e := encode(key);
    var item := e + "=" + encode(value);
    assert item[|e|] == '=';
    var k := IndexOf(item, '=').value;
    assert forall j :: 0 <= j < k ==> item[..k][j] == item[j];
    assert forall j :: 0 <= j < |e| ==> item[j] == e[j];
    assert k == |e|;
    assert item[..|e|] == e;
    assert item[|e| + 1..] == encode(value);
  }

  /** `params.get(key)`: the value of the first pair with that key. */
  function Get(pairs: seq<(string, string)>, key: string): (r: Option<string>)
    ensures r.None? <==> forall i :: 0 <= i < |pairs| ==> pairs[i].0 != key
    ensures r.Some? ==> (key, r.value) in pairs
  {
    if pairs == [] then None
    else
      var front := pairs[..|pairs| - 1];
      var x := pairs[|pairs| - 1];
      var r := Get(front, key);
      assert forall i :: 0 <= i < |front| ==> front[i] == pairs[i];
      if r.Some? then r else if x.0 == key then Some(x.1) else None
  }

  /** `parseUrlParams`: the five parameters of a parsed query. */
  function ReadParams(pairs: seq<(string, string)>): UrlParams {
    UrlParams(Get(pairs, "s"), Get(pairs, "l"), Get(pairs, "c"), Get(pairs, "b"), Get(pairs, "g"))
  }

  lemma GetSnoc(pairs: seq<(string, string)>, x: (string, string), key: string)
    ensures Get(pairs + [x], key) == if Get(pairs, key).Some? then Get(pairs, key) else if x.0 == key then Some(x.1) else None
  {
    assert (pairs + [x])[..|pairs|] == pairs;
  }

  /** In a record with distinct keys, reading a key back gives its value if it was kept and nothing otherwise. */
  lemma {:induction false} GetKept(params: seq<Param>, i: nat)
    requires i < |params|
    requires forall j :: 0 <= j < |params| && j != i ==> params[j].key != params[i].key
    ensures Get(Kept(params), params[i].key) == if IsSet(params[i]) then Some(params[i].value.value) else None
    decreases |params|
  {
    var n := |params| - 1;
    var front := params[..n];
    var p := params[n];
    var key := params[i].key;
    assert forall j :: 0 <= j < n ==> front[j] == params[j];
    if i < n {
      GetKept(front, i);
    } else {
      GetAbsent(front, key);
    }
    if IsSet(p) {
      assert Kept(params) == Kept(front) + [(p.key, p.value.value)];
      GetSnoc(Kept(front), (p.key, p.value.value), key);
    } else {
      assert Kept(params) == Kept(front);
    }
  }

  /** A key no entry of the record carries is not in what the serialiser keeps. */
  lemma {:induction false} GetAbsent(params: seq<Param>, key: string)
    requires forall j :: 0 <= j < |params| ==> params[j].key != key
    ensures Get(Kept(params), key).None?
    decreases |params|
  {
    if params != [] {
      var n := |params| - 1;
      var p := params[n];
      GetAbsent(params[..n], key);
      if IsSet(p) {
        assert Kept(params) == Kept(params[..n]) + [(p.key, p.value.value)];
        GetSnoc(Kept(params[..n]), (p.key, p.value.value), key);
      } else {
        assert Kept(params) == Kept(params[..n]);
      }
    }
  }

  /**
   * Reading back a query the router wrote from a record with distinct keys:
   * each key gives the value it was written with, or nothing when it was left
   * out.
   */
  lemma ReadBack(params: seq<Param>, encode: string -> string, decode: string -> string, i: nat)
    requires Invertible(encode, decode)
    requires i < |params| && Distinct(Keys(params))
    ensures Get(ParseQuery(QueryString(params, encode), decode), params[i].key)
      == if IsSet(params[i]) then Some(params[i].value.value) else None
  {
    QueryRoundTrip(params, encode, decode);
    forall j | 0 <= j < |params| && j != i ensures params[j].key != params[i].key {
      assert Keys(params)[j] != Keys(params)[i];
    }
    GetKept(params, i);
  }

  /**
   * Reloading the written URL restores the settings: the sort order when
   * sorting is on, the label flag, and nothing for a part at its default.
   */
  lemma WrittenSettingsReadBack(st: PageState, encode: string -> string, decode: string -> string)
    requires Invertible(encode, decode)
    ensures var p := ReadParams(ParseQuery(StateQuery(st, encode), decode));
      && (st.sort.enabled && st.sort.order != "" ==> p.s == Some(st.sort.order))
      && (!st.sort.enabled ==> p.s.None?)
      && (st.showLabels ==> p.l == Some("true")) && (!st.showLabels ==> p.l.None?)
      && (st.activeChartIndex == 0 ==> p.c.None?)
  {
    var params := StateParams(st);
    ReadBack(params, encode, decode, 0);
    ReadBack(params, encode, decode, 1);
    ReadBack(params, encode, decode, 2);
  }

  /**
   * Reloading the written URL restores the selection: a positive benchmark or
   * group id reads back, through the index guard, as the same id, and a zero
   * one as absent.
   */
  lemma WrittenSelectionReadsBack(st: PageState, encode: string -> string, decode: string -> string)
    requires Invertible(encode, decode)
    ensures var p := ReadParams(ParseQuery(StateQuery(st, encode), decode));
      && (st.benchmarkId > 0 ==> IndexParam(p.b, st.benchmarkId + 1) == Some(st.benchmarkId))
      && (st.benchmarkId <= 0 ==> p.b.None?)
      && (st.groupId > 0 ==> IndexParam(p.g, st.groupId + 1) == Some(st.groupId))
      && (st.groupId <= 0 ==> p.g.None?)
  {
    var params := StateParams(st);
    ReadBack(params, encode, decode, 3);
    ReadBack(params, encode, decode, 4);
    if st.benchmarkId > 0 {
      IndexRoundTrip(st.benchmarkId, st.benchmarkId + 1);
    }
    if st.groupId > 0 {
      IndexRoundTrip(st.groupId, st.groupId + 1);
    }
  }
}
