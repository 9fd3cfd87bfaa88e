/**
 * Flag validation (shared/utils/validators.go): each rule points at one
 * flag, a single string or a list of strings, normalises it, checks it
 * against a set of valid values or a custom validator, and puts the
 * default in place of what fails. The flags are written through pointers,
 * so they are objects here.
 */
module Validators {
  import opened Wrappers
  import opened Text
  import ParsePattern

  /** A string flag a rule writes through its pointer. */
  class StringFlag {
    var value: string

    constructor(value: string)
      ensures this.value == value
    {
      this.value := value;
    }
  }

  /** A list flag: a Go slice, whose elements live in a backing array that is updated in place. */
  class SliceFlag {
    var items: array<string>

    constructor(items: array<string>)
      ensures this.items == items
    {
      this.items := items;
    }
  }

  /** What the rule checks: a pointer to a string, a pointer to a list, or neither. */
  datatype Target = Scalar(flag: StringFlag) | Slice(list: SliceFlag) | NoTarget

  /** The checking part of a rule: valid values, optional normaliser and validator, and the default. */
  datatype Check = Check(validSet: seq<string>, normalizer: Option<string -> string>, validator: Option<string -> bool>, default: string)

  /** `ValidationRule`. */
  datatype Rule = Rule(flagLabel: string, target: Target, check: Check, sliceDefault: array<string>)

  /** The value after the normaliser, if the rule has one. */
  function Normalize(c: Check, v: string): string {
    if c.normalizer.Some? then c.normalizer.value(v) else v
  }

  /** Whether a (normalised) value passes: the validator decides when there is one, else membership of the valid set. */
  predicate Accepts(c: Check, v: string) {
    if c.validator.Some? then c.validator.value(v) else v in c.validSet
  }

  /**
   * The new value of a string flag: left alone when it and the default are
   * both empty; otherwise its normalised form if that passes, else the
   * default.
   */
  function ScalarOutcome(c: Check, v: string): (r: string)
    ensures c.default == "" && v == "" ==> r == ""
    ensures !(c.default == "" && v == "") ==> r == c.default || (r == Normalize(c, v) && Accepts(c, r))
    ensures !(c.default == "" && v == "") && Accepts(c, Normalize(c, v)) ==> r == Normalize(c, v)
  {
    if c.default == "" && v == "" then v
    else
      var n := Normalize(c, v);
      if Accepts(c, n) then n else c.default
  }

  /**
   * Applying a rule twice changes nothing more than applying it once, when
   * the normaliser is idempotent on the value and the default is itself a
   * normalised value that passes (or empty).
   */
  lemma ScalarRuleIdempotent(c: Check, v: string)
    requires Normalize(c, Normalize(c, v)) == Normalize(c, v)
    requires c.default != "" ==> Normalize(c, c.default) == c.default && Accepts(c, c.default)
    ensures ScalarOutcome(c, ScalarOutcome(c, v)) == ScalarOutcome(c, v)
  {
    var r := ScalarOutcome(c, v);
    if !(c.default == "" && v == "") && Accepts(c, Normalize(c, v)) {
      assert r == Normalize(c, v);
    }
  }

  /** `ApplyValidationRules` on one string flag. */
  method ApplyScalar(c: Check, flag: StringFlag)
    modifies flag
    ensures flag.value == ScalarOutcome(c, old(flag.value))
  {
    if c.default == "" && flag.value == "" {
      return;
    }
    if c.normalizer.Some? {
      flag.value := c.normalizer.value(flag.value);
    }
    var isValid := flag.value in c.validSet;
    if c.validator.Some? {
      isValid := c.validator.value(flag.value);
    }
    if !isValid {
      flag.value := c.default;
    }
  }

  /** Every item, normalised. */
  function NormalizeAll(c: Check, items: seq<string>): (r: seq<string>)
    ensures |r| == |items|
    ensures forall i :: 0 <= i < |items| ==> r[i] == Normalize(c, items[i])
  {
    if items == [] then [] else NormalizeAll(c, items[..|items| - 1]) + [Normalize(c, items[|items| - 1])]
  }

  /** The list with its first `n` items normalised and the rest as they were. */
  function NormalizedUpTo(c: Check, items: seq<string>, n: nat): (r: seq<string>)
    requires n <= |items|
    ensures |r| == |items|
    ensures forall i :: 0 <= i < n ==> r[i] == Normalize(c, items[i])
    ensures forall i :: n <= i < |items| ==> r[i] == items[i]
  {
    NormalizeAll(c, items[..n]) + items[n..]
  }

  /** The position of the first item whose normalised form fails, if any. */
  function FirstRejected(c: Check, items: seq<string>): (r: Option<nat>)
    ensures r.None? <==> forall i :: 0 <= i < |items| ==> Accepts(c, Normalize(c, items[i]))
    ensures r.Some? ==> r.value < |items| && !Accepts(c, Normalize(c, items[r.value]))
    ensures r.Some? ==> forall i :: 0 <= i < r.value ==> Accepts(c, Normalize(c, items[i]))
  {
    if items == [] then None
    else if !Accepts(c, Normalize(c, items[0])) then Some(0)
    else
      var rest := FirstRejected(c, items[1..]);
      if rest.None? then None
      else
        assert forall i :: 1 <= i < rest.value + 1 ==> items[i] == items[1..][i - 1];
        Some(rest.value + 1)
  }

  /** The new contents of a list flag: every item normalised if all pass, else the default list. */
  function SliceOutcome(c: Check, items: seq<string>, sliceDefault: seq<string>): (r: seq<string>)
    ensures r == sliceDefault || (|r| == |items| && forall i :: 0 <= i < |r| ==> Accepts(c, r[i]))
  {
    if FirstRejected(c, items).None? then NormalizeAll(c, items) else sliceDefault
  }

  /**
   * A list is all or nothing: it is kept, normalised, exactly when every
   * item passes; one failing item anywhere gives the default list.
   */
  lemma SliceAllOrNothing(c: Check, items: seq<string>, sliceDefault: seq<string>)
    ensures (exists k :: 0 <= k < |items| && !Accepts(c, Normalize(c, items[k]))) ==> SliceOutcome(c, items, sliceDefault) == sliceDefault
    ensures (forall k :: 0 <= k < |items| ==> Accepts(c, Normalize(c, items[k]))) ==> SliceOutcome(c, items, sliceDefault) == NormalizeAll(c, items)
  {
  }

  /**
   * `ApplyValidationRules` on one list flag: items are normalised in the
   * backing array one by one, stopping at the first that fails; if one
   * fails, the flag is pointed at the default list, and the old array keeps
   * the items normalised so far.
   */
  method ApplySlice(c: Check, list: SliceFlag, sliceDefault: array<string>)
    modifies list, list.items
    ensures var orig := old(list.items[..]); var first := FirstRejected(c, orig);
      && (first.None? ==> list.items == old(list.items) && list.items[..] == NormalizeAll(c, orig))
      && (first.Some? ==> list.items == sliceDefault && old(list.items)[..] == NormalizedUpTo(c, orig, first.value + 1))
  {
    var a := list.items;
    var isValid := NormalizeItems(c, a);
    if !isValid {
      list.items := sliceDefault;
    }
  }

  /**
   * The item loop of a list flag: normalise the items of the backing array
   * in place, one by one, stopping after the first that fails.
   */
  method NormalizeItems(c: Check, a: array<string>) returns (isValid: bool)
    modifies a
    ensures var orig := old(a[..]); var first := FirstRejected(c, orig);
      && isValid == first.None?
      && a[..] == if first.None? then NormalizeAll(c, orig) else NormalizedUpTo(c, orig, first.value + 1)
  {
    ghost var orig := a[..];
    isValid := true;
    var i := 0;
    NormalizedUpToStep(c, orig, 0);
    while i < a.Length
      invariant 0 <= i <= a.Length && |orig| == a.Length
      invariant a[..] == NormalizedUpTo(c, orig, i)
      invariant forall j :: 0 <= j < i ==> Accepts(c, Normalize(c, orig[j]))
    {
      NormalizedUpToStep(c, orig, i);
      assert a[i] == orig[i];
      var itemValid := CheckItem(c, a, i);
      assert a[..] == NormalizedUpTo(c, orig, i + 1);
      if !itemValid {
        FirstRejectedIs(c, orig, i);
        isValid := false;
        return;
      }
      i := i + 1;
    }
    NormalizedUpToStep(c, orig, i);
    assert forall j :: 0 <= j < |orig| ==> Accepts(c, Normalize(c, orig[j]));
  }

  /** One turn of the item loop: normalise item `i` in place and tell whether it passes. */
  method CheckItem(c: Check, a: array<string>, i: nat) returns (ok: bool)
    requires i < a.Length
    modifies a
    ensures a[..] == old(a[..])[i := Normalize(c, old(a[i]))]
    ensures ok == Accepts(c, a[i])
  {
    if c.normalizer.Some? {
      a[i] := c.normalizer.value(a[i]);
    }
    var v := a[i];
    ok := v in c.validSet;
    if c.validator.Some? {
      ok := c.validator.value(v);
    }
  }

  /**
   * Normalising item `n` of `NormalizedUpTo(c, items, n)` gives
   * `NormalizedUpTo(c, items, n + 1)`; nothing normalised is the list
   * itself, and everything normalised is `NormalizeAll`.
   */
  lemma NormalizedUpToStep(c: Check, items: seq<string>, n: nat)
    requires n <= |items|
    ensures n < |items| ==> NormalizedUpTo(c, items, n)[n := Normalize(c, items[n])] == NormalizedUpTo(c, items, n + 1)
    ensures NormalizedUpTo(c, items, 0) == items
    ensures NormalizedUpTo(c, items, |items|) == NormalizeAll(c, items)
  {
    if n < |items| {
      var r := NormalizedUpTo(c, items, n)[n := Normalize(c, items[n])];
      assert forall j :: 0 <= j < |items| ==> r[j] == NormalizedUpTo(c, items, n + 1)[j];
    }
    assert items[..|items|] == items;
  }

  /** An item that fails after only passing ones is the first rejected. */
  lemma FirstRejectedIs(c: Check, items: seq<string>, i: nat)
    requires i < |items| && !Accepts(c, Normalize(c, items[i]))
    requires forall j :: 0 <= j < i ==> Accepts(c, Normalize(c, items[j]))
    ensures FirstRejected(c, items) == Some(i)
  {
    var r := FirstRejected(c, items);
    assert r.Some?;
    assert r.value >= i by {
      assert forall j :: 0 <= j < i ==> Accepts(c, Normalize(c, items[j]));
    }
  }

  // ---------------------------------------------------------------------------
  // The rule loop

  /** What a list of rules may write: the flags, the lists' backing arrays and the default lists a list may be pointed at. */
  function Footprint(rules: seq<Rule>): set<object>
    reads set i | 0 <= i < |rules| && rules[i].target.Slice? :: rules[i].target.list
  {
    (set i | 0 <= i < |rules| && rules[i].target.Scalar? :: rules[i].target.flag as object)
    + (set i | 0 <= i < |rules| && rules[i].target.Slice? :: rules[i].target.list as object)
    + (set i | 0 <= i < |rules| && rules[i].target.Slice? :: rules[i].target.list.items as object)
    + (set i | 0 <= i < |rules| :: rules[i].sliceDefault as object)
  }

  function TargetObjects(r: Rule): set<object>
    reads if r.target.Slice? then {r.target.list} else {}
  {
    match r.target
    case Scalar(f) => {f}
    case Slice(l) => {l, l.items}
    case NoTarget => {}
  }

  /** What a rule reads of its flag: the string, or the list's backing array and its items, and the default list. */
  datatype Snap = Snap(value: string, items: Option<array<string>>, contents: seq<string>, defaults: seq<string>)

  ghost function SnapOf(r: Rule): Snap
    reads TargetObjects(r), r.sliceDefault
  {
    match r.target
    case Scalar(f) => Snap(f.value, None, [], r.sliceDefault[..])
    case Slice(l) => Snap("", Some(l.items), l.items[..], r.sliceDefault[..])
    case NoTarget => Snap("", None, [], r.sliceDefault[..])
  }

  /** The snapshot of every rule of a list, in order. */
  ghost function SnapsOf(rules: seq<Rule>): (snaps: seq<Snap>)
    reads Footprint(rules)
    ensures |snaps| == |rules|
    ensures forall j :: 0 <= j < |rules| ==> snaps[j] == SnapOf(rules[j])
  {
    seq(|rules|, j requires 0 <= j < |rules| reads Footprint(rules) => SnapOf(rules[j]))
  }

  /**
   * No two rules write the same flag, list or backing array, and no
   * backing array in `snaps` is some rule's default list.
   */
  ghost predicate Apart(rules: seq<Rule>, snaps: seq<Snap>)
    requires |snaps| == |rules|
  {
    && (forall i, j :: 0 <= i < j < |rules| && rules[i].target.Scalar? && rules[j].target.Scalar? ==>
          rules[i].target.flag != rules[j].target.flag)
    && (forall i, j :: 0 <= i < j < |rules| && rules[i].target.Slice? && rules[j].target.Slice? ==>
          rules[i].target.list != rules[j].target.list)
    && (forall i, j :: 0 <= i < j < |rules| && snaps[i].items.Some? && snaps[j].items.Some? ==>
          snaps[i].items.value != snaps[j].items.value)
    && (forall i, j :: 0 <= i < |rules| && 0 <= j < |rules| && snaps[i].items.Some? ==>
          snaps[i].items.value != rules[j].sliceDefault)
  }

  /** The rules of a list write separate flags and arrays, none of them a default list. */
  ghost predicate Separate(rules: seq<Rule>)
    reads Footprint(rules)
  {
    Apart(rules, SnapsOf(rules))
  }

  /** The flag of `r` holds what the rule makes of the flag as it was in `s`. */
  ghost predicate Holds(r: Rule, s: Snap)
    reads TargetObjects(r), r.sliceDefault
  {
    match r.target
    case Scalar(f) => f.value == ScalarOutcome(r.check, s.value)
    case Slice(l) =>
      && s.items.Some?
      && l.items == (if FirstRejected(r.check, s.contents).None? then s.items.value else r.sliceDefault)
      && l.items[..] == SliceOutcome(r.check, s.contents, s.defaults)
    case NoTarget => true
  }

  /** The rules before `n` have made their flags from `snaps`; the later ones still see `snaps`. */
  ghost predicate AppliedUpTo(rules: seq<Rule>, snaps: seq<Snap>, n: nat)
    requires |snaps| == |rules|
    reads Footprint(rules)
  {
    && (forall j :: 0 <= j < n && j < |rules| ==> Holds(rules[j], snaps[j]))
    && (forall j :: n <= j < |rules| ==> SnapOf(rules[j]) == snaps[j])
  }

  /** A list flag whose backing array is its own default list. */
  ghost predicate SelfAliased(r: Rule)
    reads TargetObjects(r)
  {
    r.target.Slice? && r.target.list.items == r.sliceDefault
  }

  /** The body of the rule loop: one rule applied to its flag. */
  method ApplyRule(r: Rule)
    modifies TargetObjects(r)
    ensures r.target.Slice? ==> r.target.list.items == old(r.target.list.items) || r.target.list.items == r.sliceDefault
    ensures old(!SelfAliased(r)) ==> Holds(r, old(SnapOf(r)))
  {
    match r.target
    case Scalar(f) =>
      ApplyScalar(r.check, f);
    case Slice(l) =>
      ApplySlice(r.check, l, r.sliceDefault);
    case NoTarget =>
  }

  /**
   * One turn of the rule loop: rule `i` applied to its flag. With the
   * rules apart, the rules before `i` keep what they made, rule `i` makes
   * its own, and the rules after `i` still see their starting flags.
   */
  method ApplyRuleAt(rules: seq<Rule>, ghost snaps: seq<Snap>, i: nat)
    requires i < |rules| == |snaps|
    modifies TargetObjects(rules[i])
    ensures forall j :: 0 <= j < |rules| && rules[j].target.Slice? ==>
      rules[j].target.list.items == old(rules[j].target.list.items) || rules[j].target.list.items == rules[i].sliceDefault
    ensures Apart(rules, snaps) && old(AppliedUpTo(rules, snaps, i)) ==> AppliedUpTo(rules, snaps, i + 1)
  {
    ApplyRule(rules[i]);
    forall j | 0 <= j < |rules| && rules[j].target.Slice?
      ensures rules[j].target.list.items == old(rules[j].target.list.items) || rules[j].target.list.items == rules[i].sliceDefault
    {
      if rules[i].target.Slice? && rules[j].target.list == rules[i].target.list {
      } else {
        assert rules[j].target.list !in TargetObjects(rules[i]);
      }
    }
    if Apart(rules, snaps) && old(AppliedUpTo(rules, snaps, i)) {
      forall j | 0 <= j < |rules| && j != i
        ensures j < i ==> Holds(rules[j], snaps[j])
        ensures i < j ==> SnapOf(rules[j]) == snaps[j]
      {
        assert rules[j].sliceDefault !in old(TargetObjects(rules[i]));
        match rules[j].target
        case Scalar(f) =>
          assert f !in old(TargetObjects(rules[i]));
        case Slice(l) =>
          assert l !in old(TargetObjects(rules[i]));
          assert l.items !in old(TargetObjects(rules[i]));
        case NoTarget =>
      }
    }
  }

  /**
   * `ApplyValidationRules`: the rules in order, each on its own flag. When
   * the rules write separate flags and arrays, each flag ends with what its
   * rule makes of its starting value.
   */
  method ApplyValidationRules(rules: seq<Rule>)
    modifies Footprint(rules)
    ensures old(Separate(rules)) ==> forall i :: 0 <= i < |rules| ==> Holds(rules[i], old(SnapOf(rules[i])))
  {
    ghost var fp := Footprint(rules);
    ghost var snaps := SnapsOf(rules);
    ghost var sep := Apart(rules, snaps);
    for i := 0 to |rules|
      invariant forall j :: 0 <= j < |rules| && rules[j].target.Slice? ==> rules[j].target.list.items in fp
      invariant sep ==> AppliedUpTo(rules, snaps, i)
    {
      assert rules[i].sliceDefault in fp;
      ApplyRuleAt(rules, snaps, i);
    }
  }

  // ---------------------------------------------------------------------------
  // The command's rules (cmd/flag_validation_rules.go)

  const MemUnitCheck: Check := Check(["b", "kb", "mb", "gb"], Some(AsciiLower), None, "b")
  const TimeUnitCheck: Check := Check(["ns", "us", "ms", "s"], None, None, "ns")
  const AllocUnitCheck: Check := Check(["K", "M", "B", "T"], Some(AsciiUpper), None, "")
  const FormatCheck: Check := Check(["html", "json"], Some(AsciiLower), None, "html")
  const GroupPatternCheck: Check := Check([], None, Some((p: string) => ParsePattern.ValidatePatternAsWritten(p).None?), "subject")

  /** The fallback pattern is valid, both for the check as written and for the intended one. */
  lemma SubjectIsValidPattern()
    ensures ParsePattern.ValidatePattern("subject").None?
    ensures ParsePattern.ValidatePatternAsWritten("subject").None?
  {
    var p := "subject";
    assert p[0] == 's' && p[1] == 'u' && p[2] == 'b' && p[3] == 'j' && p[4] == 'e' && p[5] == 'c' && p[6] == 't';
    ParsePattern.SplitPartsWhole(p);
    ParsePattern.ValidatePatternAccepts(p);
    ParsePattern.ValidPatternIsAcceptedAsWritten(p);
  }

  /**
   * Whatever the user passes, the units and the format end up as values
   * the formatters and the output step know (the allocation unit may stay
   * empty, meaning plain counts), and the group pattern ends up one the
   * pattern check accepts.
   */
  lemma CommandRulesYieldKnownValues(mem: string, time: string, alloc: string, format: string, pattern: string)
    ensures ScalarOutcome(MemUnitCheck, mem) in ["b", "kb", "mb", "gb"]
    ensures ScalarOutcome(TimeUnitCheck, time) in ["ns", "us", "ms", "s"]
    ensures ScalarOutcome(AllocUnitCheck, alloc) in ["", "K", "M", "B", "T"]
    ensures ScalarOutcome(FormatCheck, format) in ["html", "json"]
    ensures ParsePattern.ValidatePatternAsWritten(ScalarOutcome(GroupPatternCheck, pattern)).None?
  {
    SubjectIsValidPattern();
  }
}
