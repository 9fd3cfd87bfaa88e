/**
 * The Go side's colour cycle (shared/color_list.go): fifty colours handed out
 * in turn. The key map it consults is never written, so every call takes the
 * colour under the cursor and advances it, whatever the key.
 */
module ColorCycle {

  const ColorList: seq<string> := [
    "#5470C6", "#3BA272", "#FC8452", "#73C0DE", "#EE6666",
    "#FAC858", "#9A60B4", "#EA7CCC", "#91CC75", "#FF9F7F",
    "#3E5A9E", "#2E7D32", "#EF6C00", "#7E57C2", "#F9A825",
    "#6A8ACF", "#4CAF50", "#FF8F00", "#AB47BC", "#FFEB3B",
    "#2B4E72", "#1B5E20", "#D84315", "#512DA8", "#F57F17",
    "#4A90E2", "#66BB6A", "#FF5722", "#BA68C8", "#FFF176",
    "#1E3A5F", "#00695C", "#BF360C", "#673AB7", "#C0CA33",
    "#7FB3D5", "#81C784", "#FFAB91", "#E040FB", "#DCE775",
    "#335C8A", "#388E3C", "#E64A19", "#9575CD", "#78909C",
    "#5C9EAD", "#AED581", "#FF7043", "#F06292", "#A1887F"]

  /** The cursor after one call, wrapping from the last colour back to the first. */
  function Step(i: nat): (j: nat)
    ensures j < |ColorList|
  {
    (i + 1) % |ColorList|
  }

  /** The cursor step as the source writes it: reset only after reaching the list length. */
  function StepAsWritten(i: nat): nat {
    if i == |ColorList| then 0 else i + 1
  }

  /** The cursor after `n` calls starting from cursor 0. */
  function CursorAfter(n: nat): (i: nat)
    ensures i < |ColorList|
  {
    if n == 0 then 0 else Step(CursorAfter(n - 1))
  }

  function CursorAfterAsWritten(n: nat): nat {
    if n == 0 then 0 else StepAsWritten(CursorAfterAsWritten(n - 1))
  }

  /** The palette index the n-th call (counting from 0) after a reset hands out. */
  function IndexOfCall(n: nat): nat {
    CursorAfter(n) % |ColorList|
  }

  function IndexOfCallAsWritten(n: nat): nat {
    CursorAfterAsWritten(n) % |ColorList|
  }

  /** With the corrected step the calls cycle through the list: call n gets colour n mod 50. */
  lemma {:induction false} CallsCycle(n: nat)
    ensures IndexOfCall(n) == n % |ColorList|
    ensures CursorAfter(n) == n % |ColorList|
  {
    if n > 0 {
      CallsCycle(n - 1);
    }
  }

  /** So any |ColorList| consecutive calls hand out |ColorList| different list positions. */
  lemma {:induction false} ConsecutiveCallsDiffer(m: nat, n: nat)
    requires m < n < m + |ColorList|
    ensures IndexOfCall(m) != IndexOfCall(n)
  {
    CallsCycle(m);
    CallsCycle(n);
  }

  /** As written, the cursor counts the first |ColorList| calls without wrapping. */
  lemma {:induction false} AsWrittenCursorCounts(n: nat)
    requires n <= |ColorList|
    ensures CursorAfterAsWritten(n) == n
  {
    if n > 0 {
      AsWrittenCursorCounts(n - 1);
    }
  }

  /**
   * The discrepancy: as written, the 51st and the 52nd calls after a reset
   * both hand out the first colour.
   */
  lemma AsWrittenRepeatsFirstColor()
    ensures IndexOfCallAsWritten(|ColorList|) == 0 && IndexOfCallAsWritten(|ColorList| + 1) == 0
    ensures IndexOfCall(|ColorList|) == 0 && IndexOfCall(|ColorList| + 1) == 1
  {
    AsWrittenCursorCounts(|ColorList|);
    CallsCycle(|ColorList| + 1);
  }

  /** The cycle as the Go package holds it: a cursor the calls advance. */
  class ColorCycler {
    var cursor: nat

    constructor()
      ensures cursor == 0
    {
      cursor := 0;
    }

    /** `GetNextColorFor`: the key is not consulted, since nothing is ever stored under it. */
    method GetNextColorFor(key: string) returns (color: string)
      modifies this
      ensures color == ColorList[old(cursor) % |ColorList|]
      ensures cursor == Step(old(cursor))
    {
      var colorIndex := cursor % |ColorList|;
      color := ColorList[colorIndex];
      cursor := Step(cursor);
    }
  }
}
