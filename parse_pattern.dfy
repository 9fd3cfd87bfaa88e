/**
 * Splitting a benchmark name into its groups by a user pattern
 * (pkg/parser/parse_pattern.go). A pattern such as "name_subject/workload"
 * lists group keys (or their one-letter shorthands n, s, w) separated by `_`
 * or `/`; the benchmark name is split at the same separators, in the same
 * order, and the pieces are assigned to the keys by position.
 */
module ParsePattern {
  import opened Wrappers
  import opened Text
  import opened SeqUtil

  /** A character the separator expression `[_/]` matches. */
  predicate IsSeparator(c: char) {
    c == '_' || c == '/'
  }

  predicate NoSeparator(s: string) {
    forall j :: 0 <= j < |s| ==> !IsSeparator(s[j])
  }

  // ---------------------------------------------------------------------------
  // Pattern splitting

  /** `separatorRegex.FindAllString(s, -1)`: the separator characters of `s`, in order. */
  function Separators(s: string): (seps: seq<char>)
    ensures |seps| <= |s|
    ensures forall i :: 0 <= i < |seps| ==> IsSeparator(seps[i])
  {
    if s == [] then [] else Separators(s[..|s| - 1]) + (if IsSeparator(s[|s| - 1]) then [s[|s| - 1]] else [])
  }

  /** `separatorRegex.Split(s, -1)`: the pieces between separators, empty pieces included. */
  function SplitParts(s: string): (parts: seq<string>)
    ensures |parts| == |Separators(s)| + 1
    ensures forall i :: 0 <= i < |parts| ==> NoSeparator(parts[i])
  {
    if s == [] then [""]
    else
      var p := SplitParts(s[..|s| - 1]);
      var c := s[|s| - 1];
      if IsSeparator(c) then p + [""] else p[..|p| - 1] + [p[|p| - 1] + [c]]
  }

  /** Pieces and separators interleaved: p0 s0 p1 s1 ... pn. */
  function Interleave(parts: seq<string>, seps: seq<char>): string
    requires |parts| == |seps| + 1
  {
    if seps == [] then parts[0]
    else Interleave(parts[..|parts| - 1], seps[..|seps| - 1]) + [seps[|seps| - 1]] + parts[|parts| - 1]
  }

  /** Splitting a pattern loses nothing: its pieces, rejoined with its separators, give it back. */
  lemma {:induction false} SplitPartsRejoin(s: string)
    ensures Interleave(SplitParts(s), Separators(s)) == s
    decreases |s|
  {
    if s != [] {
      var front := s[..|s| - 1];
      var c := s[|s| - 1];
      var p := SplitParts(front);
      var seps := Separators(front);
      SplitPartsRejoin(front);
      if IsSeparator(c) {
        assert (p + [""])[..|p|] == p;
        assert (seps + [c])[..|seps|] == seps;
      } else {
        assert s == front + [c];
        assert Separators(s) == seps;
        var k := |p| - 1;
        assert SplitParts(s) == p[..k] + [p[k] + [c]];
        InterleaveExtendLast(p, seps, c);
      }
    }
  }

  /** A character added to the last piece lands at the end of the interleaving. */
  lemma InterleaveExtendLast(parts: seq<string>, seps: seq<char>, c: char)
    requires |parts| == |seps| + 1
    ensures Interleave(parts[..|parts| - 1] + [parts[|parts| - 1] + [c]], seps) == Interleave(parts, seps) + [c]
  {
    var k := |parts| - 1;
    var longer := parts[..k] + [parts[k] + [c]];
    if seps != [] {
      var head := Interleave(parts[..k], seps[..|seps| - 1]) + [seps[|seps| - 1]];
      assert longer[..k] == parts[..k] && longer[k] == parts[k] + [c];
      assert Interleave(longer, seps) == head + (parts[k] + [c]);
      assert Interleave(parts, seps) == head + parts[k];
    }
  }

  // ---------------------------------------------------------------------------
  // Pattern validation

  /**
   * The part check as written: the expression `^[nsw]|name|subject|workload$`
   * is an alternation of four branches, so it accepts a part that starts with
   * n, s or w, contains "name" or "subject", or ends with "workload".
   */
  predicate ValidPartAsWritten(part: string) {
    (part != [] && part[0] in "nsw") || Contains(part, "name") || Contains(part, "subject") || EndsWith(part, "workload")
  }

  /** The part check as intended: a key or its one-letter shorthand, and nothing else. */
  predicate ValidPart(part: string) {
    part in ["n", "s", "w", "name", "subject", "workload"]
  }

  /** The message for an invalid part. */
  function InvalidPart(part: string): string {
    "Invalid part: '" + part + "'; only name(n), subject(s), workload(w) allowed"
  }

  const EmptyPattern: string := "pattern cannot be empty"

  /** The part check in force: as written, or as intended. */
  predicate PartPasses(part: string, asWritten: bool) {
    if asWritten then ValidPartAsWritten(part) else ValidPart(part)
  }

  /** The first part that fails the check, as an error message; None when all pass. */
  function FirstInvalid(parts: seq<string>, asWritten: bool): Option<string> {
    if parts == [] then None
    else if !PartPasses(parts[0], asWritten) then Some(InvalidPart(parts[0]))
    else FirstInvalid(parts[1..], asWritten)
  }

  /** The search reports an error exactly when some part fails, and the error names a failing part. */
  lemma {:induction false} FirstInvalidFinds(parts: seq<string>, asWritten: bool)
    ensures FirstInvalid(parts, asWritten).None? <==> forall i :: 0 <= i < |parts| ==> PartPasses(parts[i], asWritten)
    ensures FirstInvalid(parts, asWritten).Some? ==>
      exists i :: 0 <= i < |parts| && !PartPasses(parts[i], asWritten) && FirstInvalid(parts, asWritten).value == InvalidPart(parts[i])
  {
    if parts != [] && PartPasses(parts[0], asWritten) {
      FirstInvalidFinds(parts[1..], asWritten);
      assert forall i :: 1 <= i < |parts| ==> parts[i] == parts[1..][i - 1];
      if FirstInvalid(parts, asWritten).Some? {
        var i :| 0 <= i < |parts[1..]| && !PartPasses(parts[1..][i], asWritten)
          && FirstInvalid(parts, asWritten).value == InvalidPart(parts[1..][i]);
        assert parts[i + 1] == parts[1..][i];
      }
    }
  }

  /** `ValidatePattern` as written: None for a pattern it accepts, else the error. */
  function ValidatePatternAsWritten(pattern: string): (err: Option<string>)
    ensures pattern == "" ==> err == Some(EmptyPattern)
  {
    if pattern == "" then Some(EmptyPattern) else FirstInvalid(SplitParts(pattern), true)
  }

  /**
   * `ValidatePattern` with the part check it evidently intends: a non-empty
   * pattern whose every piece is a key or a shorthand.
   */
  function ValidatePattern(pattern: string): (err: Option<string>)
    ensures pattern == "" ==> err == Some(EmptyPattern)
  {
    if pattern == "" then Some(EmptyPattern) else FirstInvalid(SplitParts(pattern), false)
  }

  /**
   * The check as written accepts exactly the non-empty patterns whose every
   * piece passes its part test.
   */
  lemma {:induction false} ValidatePatternAsWrittenAccepts(pattern: string)
    ensures ValidatePatternAsWritten(pattern).None? <==>
      pattern != "" && forall i :: 0 <= i < |SplitParts(pattern)| ==> ValidPartAsWritten(SplitParts(pattern)[i])
  {
    if pattern != "" {
      var parts := SplitParts(pattern);
      assert ValidatePatternAsWritten(pattern) == FirstInvalid(parts, true);
      FirstInvalidFinds(parts, true);
      if FirstInvalid(parts, true).None? {
        forall i | 0 <= i < |parts|
          ensures ValidPartAsWritten(parts[i])
        {
          assert PartPasses(parts[i], true);
        }
      } else {
        var i :| 0 <= i < |parts| && !PartPasses(parts[i], true) && FirstInvalid(parts, true).value == InvalidPart(parts[i]);
        assert !ValidPartAsWritten(SplitParts(pattern)[i]);
      }
    }
  }

  /**
   * The intended check accepts exactly the non-empty patterns whose every
   * piece is a key or a shorthand, and otherwise reports a piece that is not.
   */
  lemma {:induction false} ValidatePatternAccepts(pattern: string)
    ensures ValidatePattern(pattern).None? <==>
      pattern != "" && forall i :: 0 <= i < |SplitParts(pattern)| ==> ValidPart(SplitParts(pattern)[i])
    ensures pattern != "" && ValidatePattern(pattern).Some? ==>
      exists i :: 0 <= i < |SplitParts(pattern)| && !ValidPart(SplitParts(pattern)[i])
        && ValidatePattern(pattern).value == InvalidPart(SplitParts(pattern)[i])
  {
    if pattern != "" {
      var parts := SplitParts(pattern);
      assert ValidatePattern(pattern) == FirstInvalid(parts, false);
      FirstInvalidFinds(parts, false);
      if FirstInvalid(parts, false).None? {
        forall i | 0 <= i < |parts|
          ensures ValidPart(parts[i])
        {
          assert PartPasses(parts[i], false);
        }
      } else {
        var i :| 0 <= i < |parts| && !PartPasses(parts[i], false) && FirstInvalid(parts, false).value == InvalidPart(parts[i]);
        assert !ValidPart(SplitParts(pattern)[i]);
      }
    }
  }

  /** A string without separators is a single piece. */
  lemma {:induction false} SplitPartsWhole(s: string)
    requires NoSeparator(s)
    ensures SplitParts(s) == [s] && Separators(s) == []
    decreases |s|
  {
    if s != [] {
      var front := s[..|s| - 1];
      SplitPartsWhole(front);
      assert s == front + [s[|s| - 1]];
    }
  }

  /**
   * As written the check lets through parts that are no key: "sfoo" passes
   * (it starts with s) and so does "rename" (it contains "name"), so the
   * pattern "sfoo" is accepted with a group key that no reader of the result
   * looks up.
   */
  lemma AsWrittenAcceptsNonKeys()
    ensures ValidatePatternAsWritten("sfoo").None?
    ensures ValidatePattern("sfoo").Some?
  {
    var sfoo := "sfoo";
    assert sfoo[0] == 's' && sfoo[1] == 'f' && sfoo[2] == 'o' && sfoo[3] == 'o';
    SplitPartsWhole(sfoo);
    ValidatePatternAsWrittenAccepts(sfoo);
    ValidatePatternAccepts(sfoo);
    var parts := SplitParts("sfoo");
    assert parts == ["sfoo"];
    assert ValidPartAsWritten(parts[0]);
    assert !ValidPart(parts[0]);
  }

  /** The same holds of any part containing a key's name, such as "rename". */
  lemma AsWrittenAcceptsContainedKeys()
    ensures ValidPartAsWritten("rename") && !ValidPart("rename")
  {
    assert OccursAt("rename", "name", 2);
  }

  /** The intended check is the as-written one narrowed to the keys: every pattern it accepts is accepted as written. */
  lemma ValidPatternIsAcceptedAsWritten(pattern: string)
    requires ValidatePattern(pattern).None?
    ensures ValidatePatternAsWritten(pattern).None?
  {
    ValidatePatternAsWrittenAccepts(pattern);
    ValidatePatternAccepts(pattern);
    var parts := SplitParts(pattern);
    forall i | 0 <= i < |parts| ensures ValidPartAsWritten(parts[i]) {
      if parts[i] == "name" {
        assert OccursAt(parts[i], "name", 0);
      } else if parts[i] == "subject" {
        assert OccursAt(parts[i], "subject", 0);
      }
    }
  }

  // ---------------------------------------------------------------------------
  // Pattern keys

  /** `expandShorthand`: n, s and w stand for name, subject and workload; anything else is kept. */
  function ExpandShorthand(part: string): (key: string)
    ensures part in ["n", "s", "w"] ==> key in ["name", "subject", "workload"]
    ensures part !in ["n", "s", "w"] ==> key == part
  {
    match part
    case "n" => "name"
    case "s" => "subject"
    case "w" => "workload"
    case _ => part
  }

  /** Expanding is idempotent, and a valid part expands to one of the three keys. */
  lemma ExpandShorthandKeys(part: string)
    ensures ExpandShorthand(ExpandShorthand(part)) == ExpandShorthand(part)
    ensures ValidPart(part) ==> ExpandShorthand(part) in ["name", "subject", "workload"]
    ensures ExpandShorthand(part) == "name" <==> part in ["n", "name"]
  {
  }

  /** The keys of a pattern, shorthands expanded, in pattern order. */
  function PatternParts(pattern: string): (keys: seq<string>)
    ensures |keys| == |SplitParts(pattern)|
    ensures forall i :: 0 <= i < |keys| ==> keys[i] == ExpandShorthand(SplitParts(pattern)[i])
  {
    var parts := SplitParts(pattern);
    seq(|parts|, i requires 0 <= i < |parts| => ExpandShorthand(parts[i]))
  }

  /** `parsePatternParts`: split the pattern, then expand every piece in place. */
  method ParsePatternParts(pattern: string) returns (parts: seq<string>)
    ensures parts == PatternParts(pattern)
  {
    parts := SplitParts(pattern);
    for i := 0 to |parts|
      invariant |parts| == |SplitParts(pattern)|
      invariant forall j :: 0 <= j < i ==> parts[j] == ExpandShorthand(SplitParts(pattern)[j])
      invariant forall j :: i <= j < |parts| ==> parts[j] == SplitParts(pattern)[j]
    {
      parts := parts[i := ExpandShorthand(parts[i])];
    }
  }

  // ---------------------------------------------------------------------------
  // Name splitting

  /** `strings.SplitN(part, sep, 2)`: the text before the first `sep` and the text after it, or the part whole. */
  function SplitFirst(part: string, sep: char): (pieces: seq<string>)
    ensures 1 <= |pieces| <= 2
    ensures |pieces| == 1 <==> sep !in part
    ensures |pieces| == 1 ==> pieces[0] == part
    ensures |pieces| == 2 ==> pieces[0] + [sep] + pieces[1] == part && sep !in pieces[0]
  {
    match IndexOf(part, sep)
    case None => [part]
    case Some(k) =>
      assert part == part[..k] + [sep] + part[k + 1..];
      [part[..k], part[k + 1..]]
  }

  /** One separator applied to every current piece, each split at most once, in order. */
  function SplitEach(parts: seq<string>, sep: char): (next: seq<string>)
    ensures |parts| <= |next| <= 2 * |parts|
  {
    if parts == [] then [] else SplitEach(parts[..|parts| - 1], sep) + SplitFirst(parts[|parts| - 1], sep)
  }

  /** The pieces after applying the pattern's separators one after another. */
  function SplitAll(parts: seq<string>, seps: seq<char>): seq<string> {
    if seps == [] then parts else SplitEach(SplitAll(parts, seps[..|seps| - 1]), seps[|seps| - 1])
  }

  /**
   * `splitNameByPattern`: the name whole when the pattern has no separator;
   * otherwise the pieces after every separator of the pattern has split every
   * piece once, with the empty pieces dropped.
   */
  function SplitName(name: string, pattern: string): (parts: seq<string>)
    ensures Separators(pattern) == [] ==> parts == [name]
    ensures Separators(pattern) != [] ==> forall i :: 0 <= i < |parts| ==> parts[i] != ""
  {
    var seps := Separators(pattern);
    if seps == [] then [name]
    else
      var r := Filter(SplitAll([name], seps), IsNonEmpty);
      assert forall i :: 0 <= i < |r| ==> r[i] in r;
      r
  }

  /** The inner loop: `SplitN` every current piece at one separator, collecting the results. */
  method SplitEachLoop(parts: seq<string>, sep: char) returns (newParts: seq<string>)
    ensures newParts == SplitEach(parts, sep)
  {
    newParts := [];
    for j := 0 to |parts|
      invariant newParts == SplitEach(parts[..j], sep)
    {
      TakeSnoc(parts, j);
      assert parts[..j + 1][..j] == parts[..j];
      newParts := newParts + SplitFirst(parts[j], sep);
    }
    assert parts[..|parts|] == parts;
  }

  /** `splitNameByPattern` as the nested loops that compute it. */
  method SplitNameByPattern(name: string, pattern: string) returns (result: seq<string>)
    ensures result == SplitName(name, pattern)
  {
    var separators := Separators(pattern);
    if |separators| == 0 {
      return [name];
    }
    var parts := [name];
    for i := 0 to |separators|
      invariant parts == SplitAll([name], separators[..i])
    {
      TakeSnoc(separators, i);
      assert separators[..i + 1][..i] == separators[..i];
      parts := SplitEachLoop(parts, separators[i]);
    }
    assert separators[..|separators|] == separators;
    result := [];
    for j := 0 to |parts|
      invariant result == Filter(parts[..j], IsNonEmpty)
    {
      TakeSnoc(parts, j);
      FilterSnoc(parts[..j], parts[j], IsNonEmpty);
      if parts[j] != "" {
        result := result + [parts[j]];
      }
    }
    assert parts[..|parts|] == parts;
  }

  lemma {:induction false} SplitEachKeeps(parts: seq<string>, sep: char)
    requires forall i :: 0 <= i < |parts| ==> sep !in parts[i]
    ensures SplitEach(parts, sep) == parts
    decreases |parts|
  {
    if parts != [] {
      SplitEachKeeps(parts[..|parts| - 1], sep);
    }
  }

  /** Splitting at `sep` a name piece that holds it splits at its first occurrence. */
  lemma SplitFirstAt(piece: string, sep: char, rest: string)
    requires sep !in piece
    ensures SplitFirst(piece + [sep] + rest, sep) == [piece, rest]
  {
    var x := piece + [sep] + rest;
    var k := IndexOf(x, sep).value;
    assert x[|piece|] == sep;
    assert forall j :: 0 <= j < k ==> x[..k][j] == x[j];
    assert forall j :: 0 <= j < |piece| ==> x[j] == piece[j];
    assert k == |piece|;
    assert x[..k] == piece;
    assert x[k + 1..] == rest;
  }

  /** One separator step over pieces that are done and one that still holds the separator. */
  lemma SplitStep(done: seq<string>, piece: string, sep: char, rest: string)
    requires forall i :: 0 <= i < |done| ==> sep !in done[i]
    requires sep !in piece
    ensures SplitEach(done + [piece + [sep] + rest], sep) == done + [piece, rest]
  {
    var x := piece + [sep] + rest;
    assert (done + [x])[..|done|] == done;
    SplitEachKeeps(done, sep);
    SplitFirstAt(piece, sep, rest);
  }

  /** Interleaving, read from the front: the first piece, the first separator, then the rest. */
  lemma {:induction false} InterleaveFront(parts: seq<string>, seps: seq<char>)
    requires |parts| == |seps| + 1 && seps != []
    ensures Interleave(parts, seps) == parts[0] + [seps[0]] + Interleave(parts[1..], seps[1..])
    decreases |seps|
  {
    if |seps| > 1 {
      var p := parts[..|parts| - 1];
      var s := seps[..|seps| - 1];
      InterleaveFront(p, s);
      assert p[1..] == parts[1..][..|parts| - 2];
      assert s[1..] == seps[1..][..|seps| - 2];
    }
  }

  /**
   * The state after applying the first k separators to a name built from the
   * pattern: the first k pieces have come out, and the rest is still whole.
   */
  lemma {:induction false} SplitAllPrefix(parts: seq<string>, seps: seq<char>, k: nat)
    requires |parts| == |seps| + 1 && k <= |seps|
    requires forall i :: 0 <= i < |seps| ==> IsSeparator(seps[i])
    requires forall i :: 0 <= i < |parts| - 1 ==> NoSeparator(parts[i])
    ensures SplitAll([Interleave(parts, seps)], seps[..k]) == parts[..k] + [Interleave(parts[k..], seps[k..])]
    decreases k
  {
    if k == 0 {
      assert parts[k..] == parts && seps[k..] == seps;
    } else {
      var name := [Interleave(parts, seps)];
      SplitAllPrefix(parts, seps, k - 1);
      var before := SplitAll(name, seps[..k - 1]);
      SplitAllSnoc(name, seps, k - 1);
      assert IsSeparator(seps[k - 1]);
      assert forall i :: 0 <= i <= k - 1 ==> NoSeparator(parts[i]);
      SplitPiecesStep(before, parts, seps, k - 1);
    }
  }

  /** Applying one more separator splits each piece of the previous state once more. */
  lemma SplitAllSnoc(pieces: seq<string>, seps: seq<char>, j: nat)
    requires j < |seps|
    ensures SplitAll(pieces, seps[..j + 1]) == SplitEach(SplitAll(pieces, seps[..j]), seps[j])
  {
    assert seps[..j + 1][..j] == seps[..j];
  }

  /** The j-th separator splits the j-th piece off the still-whole remainder and leaves the pieces before it alone. */
  lemma SplitPiecesStep(before: seq<string>, parts: seq<string>, seps: seq<char>, j: nat)
    requires |parts| == |seps| + 1 && j < |seps|
    requires forall i :: 0 <= i <= j ==> NoSeparator(parts[i])
    requires IsSeparator(seps[j])
    requires before == parts[..j] + [Interleave(parts[j..], seps[j..])]
    ensures SplitEach(before, seps[j]) == parts[..j + 1] + [Interleave(parts[j + 1..], seps[j + 1..])]
  {
    var sep := seps[j];
    var tail := Interleave(parts[j + 1..], seps[j + 1..]);
    InterleaveSuffix(parts, seps, j);
    var done := parts[..j];
    forall i | 0 <= i < j ensures sep !in done[i] {
      assert NoSeparator(parts[i]);
    }
    assert sep !in parts[j] by {
      assert NoSeparator(parts[j]);
    }
    assert before == done + [parts[j] + [sep] + tail];
    SplitStep(done, parts[j], sep, tail);
    assert parts[..j + 1] == done + [parts[j]];
    assert done + [parts[j], tail] == (done + [parts[j]]) + [tail];
  }

  lemma InterleaveSuffix(parts: seq<string>, seps: seq<char>, j: nat)
    requires |parts| == |seps| + 1 && j < |seps|
    ensures Interleave(parts[j..], seps[j..]) == parts[j] + [seps[j]] + Interleave(parts[j + 1..], seps[j + 1..])
  {
    InterleaveFront(parts[j..], seps[j..]);
    assert parts[j..][1..] == parts[j + 1..] && seps[j..][1..] == seps[j + 1..];
  }

  /**
   * The splitter recovers the pieces the pattern describes: a name made of
   * non-empty pieces joined with the pattern's separators, every piece but
   * the last free of separators, splits into exactly those pieces. The last
   * piece may hold separators, since no later separator splits it.
   */
  lemma SplitNameRecoversParts(parts: seq<string>, pattern: string)
    requires |parts| == |Separators(pattern)| + 1
    requires forall i :: 0 <= i < |parts| ==> parts[i] != ""
    requires forall i :: 0 <= i < |parts| - 1 ==> NoSeparator(parts[i])
    ensures SplitName(Interleave(parts, Separators(pattern)), pattern) == parts
  {
    var seps := Separators(pattern);
    if seps != [] {
      SplitAllPrefix(parts, seps, |seps|);
      assert seps[..|seps|] == seps;
      assert parts[|seps|..] == [parts[|seps|]] && seps[|seps|..] == [];
      assert parts[..|seps|] + [parts[|seps|]] == parts;
      FilterAll(parts, IsNonEmpty);
    }
  }

  // ---------------------------------------------------------------------------
  // Assigning pieces to keys

  /** The map every result starts from: the three keys, all empty. */
  const EmptyGroups: map<string, string> := map["name" := "", "workload" := "", "subject" := ""]

  /** `mapPartsToResult`: each pattern key gets the name piece at its position, or "" past the last piece; later keys win. */
  function ResultMap(keys: seq<string>, nameParts: seq<string>): (groups: map<string, string>)
    ensures "name" in groups && "workload" in groups && "subject" in groups
    ensures forall k :: k in groups <==> k in EmptyGroups || k in keys
  {
    if keys == [] then EmptyGroups
    else
      var i := |keys| - 1;
      ResultMap(keys[..i], nameParts)[keys[i] := if i < |nameParts| then nameParts[i] else ""]
  }

  /** The map-filling loop. */
  method MapPartsToResult(keys: seq<string>, nameParts: seq<string>) returns (result: map<string, string>)
    ensures result == ResultMap(keys, nameParts)
  {
    result := EmptyGroups;
    for i := 0 to |keys|
      invariant result == ResultMap(keys[..i], nameParts)
    {
      TakeSnoc(keys, i);
      assert keys[..i + 1][..i] == keys[..i];
      if i < |nameParts| {
        result := result[keys[i] := nameParts[i]];
      } else {
        result := result[keys[i] := ""];
      }
    }
    assert keys[..|keys|] == keys;
  }

  /**
   * With distinct keys, each key holds the name piece at its own position
   * ("" when the name ran out).
   */
  lemma {:induction false} ResultMapByPosition(keys: seq<string>, nameParts: seq<string>, i: nat)
    requires Distinct(keys) && i < |keys|
    ensures ResultMap(keys, nameParts)[keys[i]] == if i < |nameParts| then nameParts[i] else ""
    decreases |keys|
  {
    var n := |keys| - 1;
    var front := keys[..n];
    var m := ResultMap(front, nameParts);
    var v := if n < |nameParts| then nameParts[n] else "";
    assert ResultMap(keys, nameParts) == m[keys[n] := v];
    if i < n {
      assert front[i] == keys[i] && keys[i] != keys[n];
      DistinctPrefix(keys, n);
      ResultMapByPosition(front, nameParts, i);
      assert m[keys[i]] == if i < |nameParts| then nameParts[i] else "";
    }
  }

  /** A key the pattern does not name keeps the "" it started with, whatever the keys. */
  lemma {:induction false} ResultMapUnnamed(keys: seq<string>, nameParts: seq<string>, k: string)
    requires k in EmptyGroups && k !in keys
    ensures ResultMap(keys, nameParts)[k] == ""
    decreases |keys|
  {
    if keys != [] {
      var n := |keys| - 1;
      assert keys[..n] + [keys[n]] == keys;
      ResultMapUnnamed(keys[..n], nameParts, k);
    }
  }

  // ---------------------------------------------------------------------------
  // The whole parse

  /**
   * `ParseBenchmarkNameToGroups`: validate the pattern, split the name by it
   * and assign the pieces to the keys. When the name has fewer pieces than
   * the pattern has keys and the pattern names "name", only the non-empty
   * groups are returned; otherwise a pattern of several keys without "name"
   * sets "name" to "".
   */
  function ParseBenchmarkNameToGroups(name: string, pattern: string): (r: Result<map<string, string>, string>)
    ensures r.Err? <==> ValidatePatternAsWritten(pattern).Some?
    ensures r.Err? ==> r.error == ValidatePatternAsWritten(pattern).value
  {
    match ValidatePatternAsWritten(pattern)
    case Some(err) => Err(err)
    case None =>
      var keys := PatternParts(pattern);
      var nameParts := SplitName(name, pattern);
      var result := ResultMap(keys, nameParts);
      if |nameParts| < |keys| && "name" in keys then
        Ok(map k | k in result && result[k] != "" :: result[k])
      else if "name" !in keys && |keys| > 1 then
        Ok(result["name" := ""])
      else
        Ok(result)
  }

  /** An empty pattern is an error. */
  lemma EmptyPatternIsError(name: string)
    ensures ParseBenchmarkNameToGroups(name, "") == Err(EmptyPattern)
  {
  }

  /**
   * Whatever the pattern, a parsed group's key is one of the three keys or a
   * pattern piece, shorthand expanded, that passed the check as written.
   */
  lemma AcceptedGroupKeys(name: string, pattern: string)
    requires ParseBenchmarkNameToGroups(name, pattern).Ok?
    ensures forall k :: k in ParseBenchmarkNameToGroups(name, pattern).value ==> k in EmptyGroups || k in PatternParts(pattern)
  {
    var result := ResultMap(PatternParts(pattern), SplitName(name, pattern));
    assert forall k :: k in ParseBenchmarkNameToGroups(name, pattern).value ==> k in result || k == "name";
  }

  /**
   * A key of a pattern the check accepts as written is one of the three keys
   * or a piece that passed the part test itself.
   */
  lemma AcceptedPatternKey(pattern: string, k: string)
    requires ValidatePatternAsWritten(pattern).None? && k in PatternParts(pattern)
    ensures k in EmptyGroups || ValidPartAsWritten(k)
  {
    var keys := PatternParts(pattern);
    ValidatePatternAsWrittenAccepts(pattern);
    var i :| 0 <= i < |keys| && keys[i] == k;
    assert ValidPartAsWritten(SplitParts(pattern)[i]);
  }

  /**
   * As written, a one-piece pattern that passes the part test without being
   * a key (such as "sfoo", see `AsWrittenAcceptsNonKeys`) parses: the piece
   * becomes a group key of its own holding the whole name, and the subject
   * stays "".
   */
  lemma AsWrittenParseKeepsNonKeys(name: string, pattern: string)
    requires pattern != "" && NoSeparator(pattern)
    requires ValidPartAsWritten(pattern) && !ValidPart(pattern)
    ensures var r := ParseBenchmarkNameToGroups(name, pattern);
      r.Ok? && pattern in r.value && r.value[pattern] == name && "subject" in r.value && r.value["subject"] == ""
  {
    SplitPartsWhole(pattern);
    ValidatePatternAsWrittenAccepts(pattern);
    assert SplitName(name, pattern) == [name];
    var keys := PatternParts(pattern);
    assert keys == [pattern];
    assert ResultMap(keys, [name]) == EmptyGroups[pattern := name];
    assert ParseBenchmarkNameToGroups(name, pattern) == Ok(ResultMap(keys, [name]));
  }

  /**
   * A pattern of keys and shorthands parses, and with enough name pieces
   * gives exactly the three keys; a key the pattern does not name is "" (so the implicit `name = ""` for a
   * pattern without "name" changes nothing), and with fewer pieces than keys
   * and "name" in the pattern no empty group is returned.
   */
  lemma ParsedGroupsShape(name: string, pattern: string)
    requires ValidatePattern(pattern).None?
    ensures ParseBenchmarkNameToGroups(name, pattern).Ok?
    ensures var r := ParseBenchmarkNameToGroups(name, pattern).value;
      var keys := PatternParts(pattern);
      && (forall k :: k in r ==> k in EmptyGroups)
      && (!(|SplitName(name, pattern)| < |keys| && "name" in keys) ==>
            (forall k :: k in r <==> k in EmptyGroups)
            && (forall k :: k in EmptyGroups && k !in keys ==> r[k] == ""))
      && (|SplitName(name, pattern)| < |keys| && "name" in keys ==> forall k :: k in r ==> r[k] != "")
  {
    var keys := PatternParts(pattern);
    var parts := SplitParts(pattern);
    ValidPatternIsAcceptedAsWritten(pattern);
    ValidatePatternAccepts(pattern);
    forall i | 0 <= i < |keys| ensures keys[i] in EmptyGroups {
      assert ValidPart(SplitParts(pattern)[i]);
      ExpandShorthandKeys(parts[i]);
    }
    forall k | k in EmptyGroups && k !in keys ensures ResultMap(keys, SplitName(name, pattern))[k] == "" {
      ResultMapUnnamed(keys, SplitName(name, pattern), k);
    }
  }

  /**
   * End to end: for a pattern of keys and shorthands with distinct keys, a name built from
   * non-empty pieces joined with the pattern's separators parses into those
   * pieces, each under the key at its position.
   */
  lemma ParseRecoversGroups(parts: seq<string>, pattern: string, i: nat)
    requires ValidatePattern(pattern).None? && Distinct(PatternParts(pattern))
    requires |parts| == |Separators(pattern)| + 1 && i < |parts|
    requires forall j :: 0 <= j < |parts| ==> parts[j] != ""
    requires forall j :: 0 <= j < |parts| - 1 ==> NoSeparator(parts[j])
    ensures var r := ParseBenchmarkNameToGroups(Interleave(parts, Separators(pattern)), pattern);
      r.Ok? && PatternParts(pattern)[i] in r.value && r.value[PatternParts(pattern)[i]] == parts[i]
  {
    var name := Interleave(parts, Separators(pattern));
    ValidPatternIsAcceptedAsWritten(pattern);
    SplitNameRecoversParts(parts, pattern);
    ResultMapByPosition(PatternParts(pattern), parts, i);
  }
}
