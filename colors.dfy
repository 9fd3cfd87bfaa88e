/**
 * The UI's colour allocator (lib/utils.ts): a fixed palette, a map from key to
 * palette index and a cursor. A key keeps the colour it was first given; a new
 * key takes the colour under the cursor, which then advances. Also the two
 * axis tests the option builders branch on.
 */
module Colors {
  import opened Text
  import opened ChartTypes

  const Palette: seq<string> := [
    "#5470C6", "#3BA272", "#FC8452", "#73C0DE", "#EE6666",
    "#FAC858", "#9A60B4", "#EA7CCC", "#91CC75", "#FF9F7F"]

  /** The allocator's state: the colours handed out so far and the cursor. */
  datatype ColorState = ColorState(colorMap: map<string, nat>, cursor: nat)

  ghost predicate Valid(s: ColorState) {
    s.cursor < |Palette| && forall k | k in s.colorMap :: s.colorMap[k] < |Palette|
  }

  const Reset: ColorState := ColorState(map[], 0)

  /** The cursor after one new key, wrapping from the last colour back to the first. */
  function Advance(i: nat): (j: nat)
    ensures j < |Palette|
    ensures i < |Palette| - 1 ==> j == i + 1
  {
    (i + 1) % |Palette|
  }

  /**
   * The cursor as the source advances it: it is reset only once it has reached
   * the palette length, so it takes the value |Palette| for one step.
   */
  function AdvanceAsWritten(i: nat): (j: nat)
    ensures j <= |Palette| || j == i + 1
    ensures i == |Palette| ==> j == 0
  {
    if i == |Palette| then 0 else i + 1
  }

  /**
   * `getNextColorFor(key)` on a state: the palette index handed out and the new
   * state. A known key gets its colour back and changes nothing; a new key
   * gets the colour under the cursor.
   */
  function NextColorFor(s: ColorState, key: string): (r: (ColorState, nat))
    requires Valid(s)
    ensures Valid(r.0) && r.1 < |Palette|
    ensures key in s.colorMap ==> r == (s, s.colorMap[key])
    ensures key !in s.colorMap ==> r.1 == s.cursor && r.0.colorMap == s.colorMap[key := s.cursor]
    ensures key in r.0.colorMap && r.0.colorMap[key] == r.1
    ensures forall k | k in s.colorMap :: k in r.0.colorMap && r.0.colorMap[k] == s.colorMap[k]
  {
    if key in s.colorMap then (s, s.colorMap[key])
    else (ColorState(s.colorMap[key := s.cursor % |Palette|], Advance(s.cursor)), s.cursor % |Palette|)
  }

  /** The state after asking for the colours of `keys`, in order. */
  function AssignAll(s: ColorState, keys: seq<string>): (t: ColorState)
    requires Valid(s)
    ensures Valid(t)
  {
    if keys == [] then s else NextColorFor(AssignAll(s, keys[..|keys| - 1]), keys[|keys| - 1]).0
  }

  /** Asking twice for a key gives the same colour both times. */
  lemma {:induction false} ColorIsStable(s: ColorState, key: string)
    requires Valid(s)
    ensures var (t, c) := NextColorFor(s, key); NextColorFor(t, key) == (t, c)
  {
  }

  /**
   * Fresh keys, all different, take consecutive palette colours starting at the
   * cursor and wrapping around; earlier keys keep theirs.
   */
  lemma {:induction false} FreshKeysCycle(s: ColorState, keys: seq<string>)
    requires Valid(s)
    requires forall i, j | 0 <= i < j < |keys| :: keys[i] != keys[j]
    requires forall i | 0 <= i < |keys| :: keys[i] !in s.colorMap
    ensures AssignAll(s, keys).cursor == (s.cursor + |keys|) % |Palette|
    ensures forall j | 0 <= j < |keys| ::
      keys[j] in AssignAll(s, keys).colorMap && AssignAll(s, keys).colorMap[keys[j]] == (s.cursor + j) % |Palette|
    ensures forall k | k in s.colorMap :: k in AssignAll(s, keys).colorMap && AssignAll(s, keys).colorMap[k] == s.colorMap[k]
    ensures forall k | k in AssignAll(s, keys).colorMap :: k in s.colorMap || k in keys
  {
    AssignedKeys(s, keys);
    FreshKeysColors(s, keys);
  }

  /** Asking for colours adds no key but those asked for. */
  lemma {:induction false} AssignedKeys(s: ColorState, keys: seq<string>)
    requires Valid(s)
    ensures forall k | k in AssignAll(s, keys).colorMap :: k in s.colorMap || k in keys
  {
    if keys != [] {
      var n := |keys| - 1;
      var front := keys[..n];
      AssignedKeys(s, front);
      var t := AssignAll(s, front);
      var u := AssignAll(s, keys);
      assert u == NextColorFor(t, keys[n]).0;
      forall k | k in u.colorMap ensures k in s.colorMap || k in keys {
        if k != keys[n] {
          assert k in t.colorMap;
          if k in front {
            var j :| 0 <= j < n && front[j] == k;
            assert keys[j] == k;
          }
        }
      }
    }
  }

  /** The colours and the cursor after distinct fresh keys. */
  lemma {:induction false} FreshKeysColors(s: ColorState, keys: seq<string>)
    requires Valid(s)
    requires forall i, j | 0 <= i < j < |keys| :: keys[i] != keys[j]
    requires forall i | 0 <= i < |keys| :: keys[i] !in s.colorMap
    ensures AssignAll(s, keys).cursor == (s.cursor + |keys|) % |Palette|
    ensures forall j | 0 <= j < |keys| ::
      keys[j] in AssignAll(s, keys).colorMap && AssignAll(s, keys).colorMap[keys[j]] == (s.cursor + j) % |Palette|
    ensures forall k | k in s.colorMap :: k in AssignAll(s, keys).colorMap && AssignAll(s, keys).colorMap[k] == s.colorMap[k]
  {
    if keys != [] {
      var n := |keys| - 1;
      var front := keys[..n];
      FreshKeysColors(s, front);
      AssignedKeys(s, front);
      var t := AssignAll(s, front);
      assert keys[n] !in front;
      assert keys[n] !in t.colorMap;
      assert AssignAll(s, keys) == NextColorFor(t, keys[n]).0;
      forall j | 0 <= j < n ensures keys[j] in t.colorMap && t.colorMap[keys[j]] == (s.cursor + j) % |Palette| {
        assert keys[j] == front[j];
      }
      FreshKeyStep(s, keys, t);
    }
  }

  /** One more fresh key: it takes the cursor, which then advances, and every earlier entry stays. */
  lemma FreshKeyStep(s: ColorState, keys: seq<string>, t: ColorState)
    requires keys != [] && Valid(t)
    requires var n := |keys| - 1;
      && keys[n] !in t.colorMap
      && t.cursor == (s.cursor + n) % |Palette|
      && (forall j | 0 <= j < n :: keys[j] in t.colorMap && t.colorMap[keys[j]] == (s.cursor + j) % |Palette|)
      && (forall k | k in s.colorMap :: k in t.colorMap && t.colorMap[k] == s.colorMap[k])
    ensures var u := NextColorFor(t, keys[|keys| - 1]).0;
      && u.cursor == (s.cursor + |keys|) % |Palette|
      && (forall j | 0 <= j < |keys| :: keys[j] in u.colorMap && u.colorMap[keys[j]] == (s.cursor + j) % |Palette|)
      && (forall k | k in s.colorMap :: k in u.colorMap && u.colorMap[k] == s.colorMap[k])
  {
    var n := |keys| - 1;
    var u := NextColorFor(t, keys[n]).0;
    assert u.colorMap == t.colorMap[keys[n] := t.cursor];
    assert u.cursor == Advance(t.cursor);
    AdvanceMod(s.cursor + n);
  }

  lemma AdvanceMod(a: nat)
    ensures Advance(a % |Palette|) == (a + 1) % |Palette|
  {
  }

  /** After a reset the first |Palette| different keys all get different colours. */
  lemma {:induction false} ResetGivesDistinctColors(keys: seq<string>)
    requires |keys| <= |Palette|
    requires forall i, j | 0 <= i < j < |keys| :: keys[i] != keys[j]
    ensures forall i | 0 <= i < |keys| :: keys[i] in AssignAll(Reset, keys).colorMap
    ensures forall i, j | 0 <= i < j < |keys| :: AssignAll(Reset, keys).colorMap[keys[i]] != AssignAll(Reset, keys).colorMap[keys[j]]
  {
    ResetColorsAreIndices(keys);
  }

  lemma SmallIndexMod(i: nat)
    requires i < |Palette|
    ensures (Reset.cursor + i) % |Palette| == i
  {
    assert |Palette| == 10;
  }

  /** After a reset, up to |Palette| different keys get the colours 0, 1, 2, … in order. */
  lemma ResetColorsAreIndices(keys: seq<string>)
    requires |keys| <= |Palette|
    requires forall i, j | 0 <= i < j < |keys| :: keys[i] != keys[j]
    ensures forall i | 0 <= i < |keys| :: keys[i] in AssignAll(Reset, keys).colorMap && AssignAll(Reset, keys).colorMap[keys[i]] == i
  {
    FreshKeysCycle(Reset, keys);
    var t := AssignAll(Reset, keys);
    forall i | 0 <= i < |keys|
      ensures keys[i] in t.colorMap && t.colorMap[keys[i]] == i
    {
      assert t.colorMap[keys[i]] == (Reset.cursor + i) % |Palette|;
      SmallIndexMod(i);
    }
  }

  /** `getNextColorFor` with the cursor advanced as the source writes it. */
  function NextColorForAsWritten(s: ColorState, key: string): (r: (ColorState, nat))
    requires s.cursor <= |Palette|
    ensures r.0.cursor <= |Palette| && r.1 < |Palette|
    ensures key in s.colorMap ==> r == (s, s.colorMap[key] % |Palette|)
    ensures key !in s.colorMap ==> r.1 == s.cursor % |Palette| && r.0.cursor == AdvanceAsWritten(s.cursor)
    ensures key !in s.colorMap ==> r.0.colorMap == s.colorMap[key := s.cursor % |Palette|]
    ensures forall k | k in s.colorMap :: k in r.0.colorMap && r.0.colorMap[k] == s.colorMap[k]
  {
    if key in s.colorMap then (s, s.colorMap[key] % |Palette|)
    else (ColorState(s.colorMap[key := s.cursor % |Palette|], AdvanceAsWritten(s.cursor)), s.cursor % |Palette|)
  }

  /** As written too, a key asked for again gets the colour it got the first time, and nothing changes. */
  lemma AsWrittenColorIsStable(s: ColorState, key: string)
    requires s.cursor <= |Palette|
    ensures var (t, c) := NextColorForAsWritten(s, key);
      NextColorForAsWritten(t, key) == (t, c)
  {
  }

  function AssignAllAsWritten(s: ColorState, keys: seq<string>): (t: ColorState)
    requires s.cursor <= |Palette|
    ensures t.cursor <= |Palette|
  {
    if keys == [] then s else NextColorForAsWritten(AssignAllAsWritten(s, keys[..|keys| - 1]), keys[|keys| - 1]).0
  }

  /** As written, up to |Palette| fresh keys after a reset leave the cursor at their count. */
  lemma {:induction false} AsWrittenCursorCounts(keys: seq<string>)
    requires |keys| <= |Palette|
    requires forall i, j | 0 <= i < j < |keys| :: keys[i] != keys[j]
    ensures AssignAllAsWritten(Reset, keys).cursor == |keys|
    ensures forall i | 0 <= i < |keys| :: keys[i] in AssignAllAsWritten(Reset, keys).colorMap
  {
    if keys != [] {
      var front := keys[..|keys| - 1];
      AsWrittenCursorCounts(front);
      var t := AssignAllAsWritten(Reset, front);
      assert forall i | 0 <= i < |front| :: front[i] in t.colorMap;
      assert keys[|keys| - 1] !in t.colorMap by {
        AsWrittenDomain(front);
      }
    }
  }

  /** As written, the keys a run has mapped are exactly the keys it was given. */
  lemma {:induction false} AsWrittenDomain(keys: seq<string>)
    ensures forall k | k in AssignAllAsWritten(Reset, keys).colorMap :: k in keys
  {
    if keys != [] {
      AsWrittenDomain(keys[..|keys| - 1]);
    }
  }

  /**
   * The discrepancy: as written, the 11th and the 12th different keys after a
   * reset both get the first palette colour, so two adjacent series look alike.
   */
  lemma {:induction false} AsWrittenRepeatsFirstColor(keys: seq<string>)
    requires |keys| == |Palette| + 2
    requires forall i, j | 0 <= i < j < |keys| :: keys[i] != keys[j]
    ensures var s := AssignAllAsWritten(Reset, keys[..|Palette| + 1]);
      NextColorForAsWritten(s, keys[|Palette| + 1]).1 == 0
    ensures NextColorForAsWritten(AssignAllAsWritten(Reset, keys[..|Palette|]), keys[|Palette|]).1 == 0
  {
    var ten := keys[..|Palette|];
    AsWrittenCursorCounts(ten);
    AsWrittenDomain(ten);
    var eleven := keys[..|Palette| + 1];
    assert eleven[..|Palette|] == ten;
    assert keys[|Palette|] !in AssignAllAsWritten(Reset, ten).colorMap;
    AsWrittenDomain(eleven);
    assert keys[|Palette| + 1] !in AssignAllAsWritten(Reset, eleven).colorMap;
    assert AssignAllAsWritten(Reset, eleven).cursor == 0;
  }

  /** The corrected cursor gives those two keys the first and the second colour. */
  lemma {:induction false} CorrectedEleventhAndTwelfthDiffer(keys: seq<string>)
    requires |keys| == |Palette| + 2
    requires forall i, j | 0 <= i < j < |keys| :: keys[i] != keys[j]
    ensures keys[|Palette|] in AssignAll(Reset, keys).colorMap && keys[|Palette| + 1] in AssignAll(Reset, keys).colorMap
    ensures AssignAll(Reset, keys).colorMap[keys[|Palette|]] == 0
    ensures AssignAll(Reset, keys).colorMap[keys[|Palette| + 1]] == 1
  {
    FreshKeysCycle(Reset, keys);
    var n := |Palette|;
    assert n == 10 && (Reset.cursor + n) % n == 0 && (Reset.cursor + n + 1) % n == 1;
  }

  /**
   * The allocator as the UI holds it: module state that `getNextColorFor`
   * updates and `resetColor` clears.
   */
  class ColorAssigner {
    var colorMap: map<string, nat>
    var cursor: nat

    ghost function State(): ColorState
      reads this
    {
      ColorState(colorMap, cursor)
    }

    constructor()
      ensures State() == Reset
    {
      colorMap := map[];
      cursor := 0;
    }

    /** The colour for `key`, allocating the one under the cursor when the key is new. */
    method GetNextColorFor(key: string) returns (color: string)
      requires Valid(State())
      modifies this
      ensures State() == NextColorFor(old(State()), key).0
      ensures color == Palette[NextColorFor(old(State()), key).1]
    {
      var colorIndex: nat;
      if key in colorMap {
        colorIndex := colorMap[key];
      } else {
        colorIndex := cursor % |Palette|;
        colorMap := colorMap[key := colorIndex];
        cursor := Advance(cursor);
      }
      color := Palette[colorIndex];
    }

    method ResetColor()
      modifies this
      ensures State() == Reset
    {
      colorMap := map[];
      cursor := 0;
    }
  }

  /** `hasXAxis`: some series has an x label that is not blank. */
  predicate HasXAxis(series: seq<SeriesData>) {
    exists i | 0 <= i < |series| :: NonBlank(series[i].xAxis)
  }

  /** `hasYAxis`: the y domain is non-empty and its first label is not the empty string. */
  predicate HasYAxis(yAxis: seq<string>) {
    |yAxis| > 0 && yAxis[0] != ""
  }
}
