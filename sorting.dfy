/** Array.prototype.sort with a comparator `(a, b) => key(a) - key(b)`, as
    the card uses it on segments, severity entries, gradient stops and gauge
    levels. JavaScript's sort is stable; for finite keys that pins down one
    result, which `SortBy` computes. A NaN key makes the comparator
    inconsistent and leaves the order to the engine: `SortBy` is then one
    such order (an element moves left only past elements it is strictly
    below). */
module Sorting {
  import opened Js

  /** The comparator's verdict "a goes before b": `a - b < 0`. */
  predicate Before(a: Num, b: Num)
  {
    NumLt(a, b)
  }

  /** x inserted into s from the right, moving left past every element it
      is strictly below. */
  function InsertBy<T>(x: T, s: seq<T>, key: T -> Num): (r: seq<T>)
    ensures |r| == |s| + 1
  {
    if s == [] then [x]
    else if Before(key(x), key(s[|s| - 1])) then
      InsertBy(x, s[..|s| - 1], key) + [s[|s| - 1]]
    else s + [x]
  }

  /** Stable insertion sort of s by key. */
  function SortBy<T>(s: seq<T>, key: T -> Num): (r: seq<T>)
    ensures |r| == |s|
  {
    if s == [] then []
    else InsertBy(s[|s| - 1], SortBy(s[..|s| - 1], key), key)
  }

  /** Inserting adds exactly x to the elements. */
  lemma {:induction false} InsertByPermutes<T>(x: T, s: seq<T>, key: T -> Num)
    ensures multiset(InsertBy(x, s, key)) == multiset(s) + multiset{x}
  {
    if s != [] {
      var init, last := s[..|s| - 1], s[|s| - 1];
      assert init + [last] == s;
      if Before(key(x), key(last)) {
        InsertByPermutes(x, init, key);
      }
    }
  }

  /** Sorting only reorders. */
  lemma {:induction false} SortByPermutes<T>(s: seq<T>, key: T -> Num)
    ensures multiset(SortBy(s, key)) == multiset(s)
  {
    if s != [] {
      var init, last := s[..|s| - 1], s[|s| - 1];
      assert init + [last] == s;
      SortByPermutes(init, key);
      InsertByPermutes(last, SortBy(init, key), key);
    }
  }

  predicate AllFinite<T>(s: seq<T>, key: T -> Num)
  {
    forall i :: 0 <= i < |s| ==> key(s[i]).Fin?
  }

  /** Ascending by key: no element is strictly below one before it. */
  predicate SortedBy<T>(s: seq<T>, key: T -> Num)
  {
    forall i, j :: 0 <= i < j < |s| ==> !Before(key(s[j]), key(s[i]))
  }

  lemma AllFiniteMultiset<T>(s: seq<T>, t: seq<T>, key: T -> Num)
    requires multiset(s) == multiset(t)
    requires AllFinite(s, key)
    ensures AllFinite(t, key)
  {
    forall i | 0 <= i < |t| ensures key(t[i]).Fin? {
      assert t[i] in multiset(t);
      assert t[i] in multiset(s);
      var j :| 0 <= j < |s| && s[j] == t[i];
    }
  }

  lemma {:induction false} InsertSorted<T>(x: T, s: seq<T>, key: T -> Num)
    requires key(x).Fin? && AllFinite(s, key) && SortedBy(s, key)
    ensures SortedBy(InsertBy(x, s, key), key)
  {
    if s != [] && Before(key(x), key(s[|s| - 1])) {
      var init := s[..|s| - 1];
      InsertSorted(x, init, key);
      var r := InsertBy(x, init, key);
      var last := s[|s| - 1];
      InsertByPermutes(x, init, key);
      assert AllFinite(init + [x], key);
      AllFiniteMultiset(init + [x], r, key);
      forall i | 0 <= i < |r| ensures key(r[i]).r <= key(last).r {
        assert r[i] in multiset(r);
        assert r[i] in multiset(init) + multiset{x};
        if r[i] != x {
          assert r[i] in multiset(init);
          var j :| 0 <= j < |init| && init[j] == r[i];
          assert s[j] == r[i];
        }
      }
    }
  }

  /** With finite keys, SortBy sorts ascending. */
  lemma {:induction false} SortBySorted<T>(s: seq<T>, key: T -> Num)
    requires AllFinite(s, key)
    ensures SortedBy(SortBy(s, key), key)
  {
    if s != [] {
      var init := s[..|s| - 1];
      assert AllFinite(init, key);
      SortBySorted(init, key);
      SortByPermutes(init, key);
      AllFiniteMultiset(init, SortBy(init, key), key);
      InsertSorted(s[|s| - 1], SortBy(init, key), key);
    }
  }

  /** Sorting with finite keys yields finite keys. */
  lemma SortByFinite<T>(s: seq<T>, key: T -> Num)
    requires AllFinite(s, key)
    ensures AllFinite(SortBy(s, key), key)
  {
    SortByPermutes(s, key);
    AllFiniteMultiset(s, SortBy(s, key), key);
  }

  /** Sorting one more element inserts it into the sorted prefix. */
  lemma SortByStep<T>(s: seq<T>, i: nat, key: T -> Num)
    requires i < |s|
    ensures SortBy(s[..i + 1], key) == InsertBy(s[i], SortBy(s[..i], key), key)
  {
    assert s[..i + 1][..i] == s[..i];
  }

  /** Sorting a list that is already in order changes nothing (so SortBy
      is idempotent on finite keys). */
  lemma {:induction false} SortBySortedUnchanged<T>(s: seq<T>, key: T -> Num)
    requires SortedBy(s, key)
    ensures SortBy(s, key) == s
  {
    if s != [] {
      var init, last := s[..|s| - 1], s[|s| - 1];
      assert SortedBy(init, key);
      SortBySortedUnchanged(init, key);
      assert init + [last] == s;
      if init != [] {
        assert !Before(key(last), key(init[|init| - 1]));
      }
    }
  }

  /** Insertion from the right stops at j when x is below every element
      from j on and not below the one before j: x goes in at j. */
  lemma {:induction false} InsertAt<T>(x: T, p: seq<T>, j: nat, key: T -> Num)
    requires j <= |p|
    requires forall k :: j <= k < |p| ==> Before(key(x), key(p[k]))
    requires j == 0 || !Before(key(x), key(p[j - 1]))
    ensures InsertBy(x, p, key) == p[..j] + [x] + p[j..]
    decreases |p|
  {
    if j < |p| {
      var q, last := p[..|p| - 1], p[|p| - 1];
      assert Before(key(x), key(last));
      assert InsertBy(x, p, key) == InsertBy(x, q, key) + [last];
      forall k | j <= k < |q| ensures Before(key(x), key(q[k])) {
        assert q[k] == p[k];
      }
      assert j == 0 || q[j - 1] == p[j - 1];
      InsertAt(x, q, j, key);
      assert q[..j] == p[..j];
      assert q[j..] + [last] == p[j..];
    } else {
      assert p[..j] == p && p[j..] == [];
    }
  }
}
