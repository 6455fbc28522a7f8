/** A stable sort by an integer key. The analyser orders note indices by MIDI
    number and interpretations by rank with the standard library's sorts; the
    model uses this one for both. Stability is stated per key: the elements
    that share a key keep their relative order. */
module Sorting {

  /** The elements of `s` whose key is `v`, in their order in `s`. */
  function Filter<T>(s: seq<T>, key: T -> int, v: int): seq<T>
  {
    if s == [] then []
    else Filter(s[..|s| - 1], key, v) + (if key(s[|s| - 1]) == v then [s[|s| - 1]] else [])
  }

  lemma {:induction false} FilterConcat<T>(a: seq<T>, b: seq<T>, key: T -> int, v: int)
    ensures Filter(a + b, key, v) == Filter(a, key, v) + Filter(b, key, v)
    decreases |b|
  {
    if b == [] {
      assert a + b == a;
    } else {
      var b' := b[..|b| - 1];
      FilterConcat(a, b', key, v);
      assert (a + b)[..|a + b| - 1] == a + b';
    }
  }

  predicate Sorted<T>(s: seq<T>, key: T -> int) {
    forall i, j | 0 <= i < j < |s| :: key(s[i]) <= key(s[j])
  }

  /** Places `x` after every element of `t` whose key is at most `x`'s. */
  function Insert<T>(x: T, t: seq<T>, key: T -> int): (r: seq<T>)
    ensures |r| == |t| + 1
    ensures multiset(r) == multiset(t) + multiset{x}
    ensures forall k | 0 <= k < |r| :: r[k] == x || r[k] in t
  {
    if t == [] || key(t[|t| - 1]) <= key(x) then t + [x]
    else
      var last := t[|t| - 1];
      assert t == t[..|t| - 1] + [last];
      Insert(x, t[..|t| - 1], key) + [last]
  }

  lemma {:induction false} InsertSorted<T>(x: T, t: seq<T>, key: T -> int)
    requires Sorted(t, key)
    ensures Sorted(Insert(x, t, key), key)
    decreases |t|
  {
    if t != [] && key(t[|t| - 1]) > key(x) {
      var t', last := t[..|t| - 1], t[|t| - 1];
      InsertSorted(x, t', key);
      var r' := Insert(x, t', key);
      assert Insert(x, t, key) == r' + [last];
      forall k | 0 <= k < |r'|
        ensures key(r'[k]) <= key(last)
      {
        if r'[k] != x {
          var m :| 0 <= m < |t'| && t'[m] == r'[k];
          assert t[m] == t'[m];
        }
      }
    }
  }

  lemma {:induction false} InsertFilter<T>(x: T, t: seq<T>, key: T -> int, v: int)
    ensures Filter(Insert(x, t, key), key, v) == Filter(t, key, v) + (if key(x) == v then [x] else [])
    decreases |t|
  {
    if t == [] || key(t[|t| - 1]) <= key(x) {
      assert (t + [x])[..|t|] == t;
    } else {
      var t', last := t[..|t| - 1], t[|t| - 1];
      InsertFilter(x, t', key, v);
      var r' := Insert(x, t', key);
      assert Insert(x, t, key) == r' + [last];
      assert (r' + [last])[..|r'|] == r';
      assert t == t' + [last];
      assert key(x) == v ==> key(last) != v;
    }
  }

  /** Stable insertion sort by `key`. */
  function SortBy<T>(s: seq<T>, key: T -> int): (r: seq<T>)
    ensures |r| == |s|
    ensures multiset(r) == multiset(s)
  {
    if s == [] then []
    else
      assert s == s[..|s| - 1] + [s[|s| - 1]];
      Insert(s[|s| - 1], SortBy(s[..|s| - 1], key), key)
  }

  /** The sort orders by key. */
  lemma {:induction false} SortBySorted<T>(s: seq<T>, key: T -> int)
    ensures Sorted(SortBy(s, key), key)
    decreases |s|
  {
    if s != [] {
      var s', x := s[..|s| - 1], s[|s| - 1];
      SortBySorted(s', key);
      InsertSorted(x, SortBy(s', key), key);
    }
  }

  /** The sort keeps the relative order of elements with equal keys. */
  lemma {:induction false} SortByIsStable<T>(s: seq<T>, key: T -> int)
    ensures forall v :: Filter(SortBy(s, key), key, v) == Filter(s, key, v)
    decreases |s|
  {
    if s != [] {
      var s', x := s[..|s| - 1], s[|s| - 1];
      SortByIsStable(s', key);
      forall v
        ensures Filter(SortBy(s, key), key, v) == Filter(s, key, v)
      {
        InsertFilter(x, SortBy(s', key), key, v);
      }
    }
  }

  /** Elements of a permutation are elements of the original. */
  lemma {:induction false} SortByMembers<T>(s: seq<T>, key: T -> int)
    ensures forall y | y in SortBy(s, key) :: y in s
  {
    var r := SortBy(s, key);
    forall y | y in r
      ensures y in s
    {
      assert y in multiset(r);
    }
  }
}
