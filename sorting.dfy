/**
 * `Array.prototype.sort` with the comparators of common.ts, as the option
 * builders call it. The engine's sort is stable (ECMAScript 2019); it is
 * modelled as a stable insertion sort on values: an element goes after every
 * element the comparator does not place after it.
 */
module Sorting {
  import opened Common
  import opened SeqUtil

  /** `s` is ordered by the comparator: no pair is out of order. */
  ghost predicate SortedBy<T>(s: seq<T>, order: string, key: T -> real) {
    forall i, j :: 0 <= i < j < |s| ==> CompareBy(order, key(s[i]), key(s[j])) <= 0.0
  }

  function Insert<T>(t: seq<T>, x: T, order: string, key: T -> real): (r: seq<T>)
    ensures |r| == |t| + 1
  {
    if t == [] then [x]
    else if CompareBy(order, key(t[|t| - 1]), key(x)) <= 0.0 then t + [x]
    else Insert(t[..|t| - 1], x, order, key) + [t[|t| - 1]]
  }

  /** The sorted copy of `s` (a stable sort by `key` in the given order). */
  function SortBy<T>(s: seq<T>, order: string, key: T -> real): (r: seq<T>)
    ensures |r| == |s|
  {
    if s == [] then [] else Insert(SortBy(s[..|s| - 1], order, key), s[|s| - 1], order, key)
  }

  /** Insert places `x` after a prefix of `t` and before the rest, which the comparator puts after `x`. */
  lemma {:induction false} InsertSplit<T>(t: seq<T>, x: T, order: string, key: T -> real) returns (m: nat)
    ensures m <= |t| && Insert(t, x, order, key) == t[..m] + [x] + t[m..]
    ensures forall i :: m <= i < |t| ==> CompareBy(order, key(t[i]), key(x)) > 0.0
    ensures m > 0 ==> CompareBy(order, key(t[m - 1]), key(x)) <= 0.0
  {
    if t == [] {
      m := 0;
    } else if CompareBy(order, key(t[|t| - 1]), key(x)) <= 0.0 {
      m := |t|;
    } else {
      var t' := t[..|t| - 1];
      m := InsertSplit(t', x, order, key);
      assert t[..m] == t'[..m];
      assert t[m..] == t'[m..] + [t[|t| - 1]];
    }
  }

  lemma InsertPermutation<T>(t: seq<T>, x: T, order: string, key: T -> real)
    ensures multiset(Insert(t, x, order, key)) == multiset(t) + multiset{x}
  {
    var m := InsertSplit(t, x, order, key);
    assert t == t[..m] + t[m..];
  }

  lemma {:induction false} InsertSorted<T>(t: seq<T>, x: T, order: string, key: T -> real)
    requires SortedBy(t, order, key)
    ensures SortedBy(Insert(t, x, order, key), order, key)
  {
    var m := InsertSplit(t, x, order, key);
    var r := Insert(t, x, order, key);
    forall i, j | 0 <= i < j < |r|
      ensures CompareBy(order, key(r[i]), key(r[j])) <= 0.0
    {
      if j < m {
        assert r[i] == t[i] && r[j] == t[j];
      } else if j == m {
        assert r[i] == t[i];
        if i < m - 1 {
          assert CompareBy(order, key(t[i]), key(t[m - 1])) <= 0.0;
        }
      } else if i == m {
        assert r[j] == t[j - 1];
      } else if i < m {
        assert r[i] == t[i] && r[j] == t[j - 1];
      } else {
        assert r[i] == t[i - 1] && r[j] == t[j - 1];
      }
    }
  }

  /** Sorting is a permutation: the multiset of elements is unchanged. */
  lemma {:induction false} SortByPermutation<T>(s: seq<T>, order: string, key: T -> real)
    ensures multiset(SortBy(s, order, key)) == multiset(s)
  {
    if s != [] {
      var p := s[..|s| - 1];
      SortByPermutation(p, order, key);
      InsertPermutation(SortBy(p, order, key), s[|s| - 1], order, key);
      assert s == p + [s[|s| - 1]];
    }
  }

  /** The result is ordered by the comparator. */
  lemma {:induction false} SortBySorted<T>(s: seq<T>, order: string, key: T -> real)
    ensures SortedBy(SortBy(s, order, key), order, key)
  {
    if s != [] {
      SortBySorted(s[..|s| - 1], order, key);
      InsertSorted(SortBy(s[..|s| - 1], order, key), s[|s| - 1], order, key);
    }
  }

  /** An already ordered sequence is left as it is; in particular sorting twice equals sorting once. */
  lemma {:induction false} SortByIdempotent<T>(s: seq<T>, order: string, key: T -> real)
    requires SortedBy(s, order, key)
    ensures SortBy(s, order, key) == s
  {
    if s != [] {
      var p := s[..|s| - 1];
      assert SortedBy(p, order, key);
      SortByIdempotent(p, order, key);
      if |p| > 0 {
        assert CompareBy(order, key(s[|s| - 2]), key(s[|s| - 1])) <= 0.0;
      }
      assert s == p + [s[|s| - 1]];
    }
  }

  /** The predicate "has key k", to select the elements that tie on `k`. */
  function KeyIs<T>(key: T -> real, k: real): T -> bool {
    e => key(e) == k
  }

  lemma {:induction false} InsertStable<T>(t: seq<T>, x: T, order: string, key: T -> real, k: real)
    ensures Filter(Insert(t, x, order, key), KeyIs(key, k))
         == Filter(t, KeyIs(key, k)) + (if key(x) == k then [x] else [])
  {
    var p := KeyIs(key, k);
    var m := InsertSplit(t, x, order, key);
    var lo, hi := t[..m], t[m..];
    assert t == lo + hi;
    FilterAppend(lo, hi, p);
    FilterAppend(lo + [x], hi, p);
    FilterSnoc(lo, x, p);
    if key(x) == k {
      assert p(x);
      forall i | 0 <= i < |hi|
        ensures CompareBy(order, key(hi[i]), key(x)) > 0.0
      {
        assert hi[i] == t[m + i];
      }
      AfterInsertedFilteredOut(hi, x, order, key);
      assert Filter(hi, p) == [];
      assert Filter(lo + [x], p) == Filter(lo, p) + [x];
    } else {
      assert !p(x);
      assert Filter(lo + [x], p) == Filter(lo, p);
    }
  }

  /** Elements the comparator puts after `x` have a key other than `x`'s. */
  lemma AfterInsertedFilteredOut<T>(hi: seq<T>, x: T, order: string, key: T -> real)
    requires forall i :: 0 <= i < |hi| ==> CompareBy(order, key(hi[i]), key(x)) > 0.0
    ensures Filter(hi, KeyIs(key, key(x))) == []
  {
    var p := KeyIs(key, key(x));
    forall i | 0 <= i < |hi|
      ensures !p(hi[i])
    {
      assert CompareBy(order, key(hi[i]), key(x)) > 0.0;
    }
    FilterNone(hi, p);
  }

  /**
   * The sort is stable: the elements sharing any one key keep their relative
   * order (the tie-break the ECMAScript sort guarantees).
   */
  lemma {:induction false} SortByStable<T>(s: seq<T>, order: string, key: T -> real, k: real)
    ensures Filter(SortBy(s, order, key), KeyIs(key, k)) == Filter(s, KeyIs(key, k))
  {
    if s != [] {
      var s' := s[..|s| - 1];
      var x := s[|s| - 1];
      SortByStable(s', order, key, k);
      InsertStable(SortBy(s', order, key), x, order, key, k);
      assert s == s' + [x];
      FilterSnoc(s', x, KeyIs(key, k));
    }
  }

  /** Sorting does not change the sum of any quantity over the elements. */
  lemma {:induction false} SortByKeepsSum<T>(s: seq<T>, order: string, key: T -> real, f: T -> real)
    ensures SumOf(SortBy(s, order, key), f) == SumOf(s, f)
  {
    if s != [] {
      var p := s[..|s| - 1];
      var x := s[|s| - 1];
      SortByKeepsSum(p, order, key, f);
      InsertKeepsSum(SortBy(p, order, key), x, order, key, f);
    }
  }

  /** Inserting `x` adds `f(x)` to the sum. */
  lemma InsertKeepsSum<T>(t: seq<T>, x: T, order: string, key: T -> real, f: T -> real)
    ensures SumOf(Insert(t, x, order, key), f) == SumOf(t, f) + f(x)
  {
    var m := InsertSplit(t, x, order, key);
    var lo, hi := t[..m], t[m..];
    assert t == lo + hi;
    SumOfAppend(lo, hi, f);
    SumOfAppend(lo + [x], hi, f);
    SumOfAppend(lo, [x], f);
    assert SumOf([x], f) == f(x);
  }
}
