/** The stable descending sort that Python's `list.sort(key=..., reverse=True)`
    and a descending JavaScript `Array.prototype.sort` comparator perform, and the
    slicing operators of the two languages. */
module Sorting {

  predicate SortedDesc<T>(xs: seq<T>, key: T -> real) {
    forall i, j :: 0 <= i < j < |xs| ==> key(xs[i]) >= key(xs[j])
  }

  /** The elements of `xs` whose key is `v`, in their order in `xs`. */
  function WithKey<T>(xs: seq<T>, key: T -> real, v: real): seq<T>
    decreases |xs|
  {
    if |xs| == 0 then []
    else WithKey(xs[..|xs| - 1], key, v) + (if key(xs[|xs| - 1]) == v then [xs[|xs| - 1]] else [])
  }

  /** Puts `x` after every element whose key is at least `key(x)`. */
  function Insert<T>(sorted: seq<T>, x: T, key: T -> real): seq<T>
    decreases |sorted|
  {
    if |sorted| == 0 then [x]
    else if key(sorted[0]) >= key(x) then [sorted[0]] + Insert(sorted[1..], x, key)
    else [x] + sorted
  }

  /** Stable sort by non-increasing key: elements are inserted in input order,
      each after all elements of equal or larger key. */
  function SortDesc<T>(xs: seq<T>, key: T -> real): (r: seq<T>)
    ensures |r| == |xs|
    decreases |xs|
  {
    if |xs| == 0 then []
    else
      InsertLength(SortDesc(xs[..|xs| - 1], key), xs[|xs| - 1], key);
      Insert(SortDesc(xs[..|xs| - 1], key), xs[|xs| - 1], key)
  }

  lemma {:induction false} InsertLength<T>(sorted: seq<T>, x: T, key: T -> real)
    ensures |Insert(sorted, x, key)| == |sorted| + 1
    decreases |sorted|
  {
    if |sorted| > 0 && key(sorted[0]) >= key(x) {
      InsertLength(sorted[1..], x, key);
    }
  }

  lemma {:induction false} InsertSorted<T>(s: seq<T>, x: T, key: T -> real)
    requires SortedDesc(s, key)
    ensures SortedDesc(Insert(s, x, key), key)
    ensures multiset(Insert(s, x, key)) == multiset(s) + multiset{x}
    ensures |Insert(s, x, key)| == |s| + 1
    decreases |s|
  {
    if |s| > 0 && key(s[0]) >= key(x) {
      InsertSorted(s[1..], x, key);
      var r := Insert(s[1..], x, key);
      assert s == [s[0]] + s[1..];
      assert forall k :: 0 <= k < |r| ==> key(s[0]) >= key(r[k]) by {
        forall k | 0 <= k < |r|
          ensures key(s[0]) >= key(r[k])
        {
          assert r[k] in multiset(s[1..]) + multiset{x};
          if r[k] in multiset(s[1..]) {
            var m :| 0 <= m < |s[1..]| && s[1..][m] == r[k];
            assert s[m + 1] == r[k];
          }
        }
      }
    }
  }

  /** The sort orders by key and returns a permutation of its input. */
  lemma {:induction false} SortDescSortedPermutation<T>(xs: seq<T>, key: T -> real)
    ensures SortedDesc(SortDesc(xs, key), key)
    ensures multiset(SortDesc(xs, key)) == multiset(xs)
    ensures |SortDesc(xs, key)| == |xs|
    decreases |xs|
  {
    if |xs| > 0 {
      SortDescSortedPermutation(xs[..|xs| - 1], key);
      InsertSorted(SortDesc(xs[..|xs| - 1], key), xs[|xs| - 1], key);
      assert xs == xs[..|xs| - 1] + [xs[|xs| - 1]];
    }
  }

  lemma {:induction false} WithKeyAppend<T>(a: seq<T>, b: seq<T>, key: T -> real, v: real)
    ensures WithKey(a + b, key, v) == WithKey(a, key, v) + WithKey(b, key, v)
    decreases |b|
  {
    if |b| > 0 {
      assert (a + b)[..|a + b| - 1] == a + b[..|b| - 1];
      WithKeyAppend(a, b[..|b| - 1], key, v);
    } else {
      assert a + b == a;
    }
  }

  lemma {:induction false} WithKeyCons<T>(x: T, s: seq<T>, key: T -> real, v: real)
    ensures WithKey([x] + s, key, v) == (if key(x) == v then [x] else []) + WithKey(s, key, v)
  {
    WithKeyAppend([x], s, key, v);
    assert [x][..0] == [];
  }

  /** In a sorted sequence that starts below `v` nothing has key `v`. */
  lemma {:induction false} WithKeyNoneAbove<T>(s: seq<T>, key: T -> real, v: real)
    requires SortedDesc(s, key)
    requires |s| > 0 ==> key(s[0]) < v
    ensures WithKey(s, key, v) == []
    decreases |s|
  {
    if |s| > 0 {
      WithKeyNoneAbove(s[..|s| - 1], key, v);
    }
  }

  lemma {:induction false} InsertWithKey<T>(s: seq<T>, x: T, key: T -> real, v: real)
    requires SortedDesc(s, key)
    ensures WithKey(Insert(s, x, key), key, v) == WithKey(s, key, v) + (if key(x) == v then [x] else [])
    decreases |s|
  {
    if |s| == 0 {
      WithKeyCons(x, [], key, v);
    } else if key(s[0]) >= key(x) {
      var rest := s[1..];
      assert SortedDesc(rest, key);
      InsertWithKey(rest, x, key, v);
      assert Insert(s, x, key) == [s[0]] + Insert(rest, x, key);
      WithKeyCons(s[0], Insert(rest, x, key), key, v);
      WithKeyCons(s[0], rest, key, v);
      assert [s[0]] + rest == s;
    } else {
      assert Insert(s, x, key) == [x] + s;
      WithKeyCons(x, s, key, v);
      if key(x) == v {
        WithKeyNoneAbove(s, key, v);
      }
    }
  }

  /** Stability: for every key value, the elements with that key keep their input order. */
  lemma {:induction false} SortDescStable<T>(xs: seq<T>, key: T -> real, v: real)
    ensures WithKey(SortDesc(xs, key), key, v) == WithKey(xs, key, v)
    decreases |xs|
  {
    if |xs| > 0 {
      var init := xs[..|xs| - 1];
      SortDescStable(init, key, v);
      SortDescSortedPermutation(init, key);
      InsertWithKey(SortDesc(init, key), xs[|xs| - 1], key, v);
    }
  }

  /** A sequence already in order is left as it is. */
  lemma {:induction false} SortDescOfSorted<T>(xs: seq<T>, key: T -> real)
    requires SortedDesc(xs, key)
    ensures SortDesc(xs, key) == xs
    decreases |xs|
  {
    if |xs| > 0 {
      var init := xs[..|xs| - 1];
      assert SortedDesc(init, key);
      SortDescOfSorted(init, key);
      InsertAtEnd(init, xs[|xs| - 1], key);
      assert init + [xs[|xs| - 1]] == xs;
    }
  }

  lemma {:induction false} InsertAtEnd<T>(s: seq<T>, x: T, key: T -> real)
    requires forall k :: 0 <= k < |s| ==> key(s[k]) >= key(x)
    ensures Insert(s, x, key) == s + [x]
    decreases |s|
  {
    if |s| > 0 {
      InsertAtEnd(s[1..], x, key);
      assert s == [s[0]] + s[1..];
    }
  }

  /** In a sequence sorted by non-increasing key, the elements after a prefix
      have keys no larger than any in the prefix. */
  lemma {:induction false} SortedPrefixLargest<T>(s: seq<T>, key: T -> real, n: nat)
    requires SortedDesc(s, key) && n <= |s|
    ensures forall x, y :: x in multiset(s) - multiset(s[..n]) && y in s[..n] ==> key(x) <= key(y)
  {
    assert s == s[..n] + s[n..];
    assert multiset(s) - multiset(s[..n]) == multiset(s[n..]);
    forall x, y | x in multiset(s[n..]) && y in s[..n]
      ensures key(x) <= key(y)
    {
      var i :| 0 <= i < |s[n..]| && s[n..][i] == x;
      var j :| 0 <= j < n && s[..n][j] == y;
      assert s[n + i] == x && s[j] == y;
    }
  }

  /** A prefix of the sorted sequence keeps the largest keys: every element it
      leaves out (counted with multiplicity) has a key no larger than any it keeps. */
  lemma PrefixKeepsLargest<T>(xs: seq<T>, key: T -> real, n: nat)
    requires n <= |xs|
    ensures var s := SortDesc(xs, key);
      multiset(s[..n]) <= multiset(xs)
      && forall x, y :: x in multiset(xs) - multiset(s[..n]) && y in s[..n] ==> key(x) <= key(y)
  {
    var s := SortDesc(xs, key);
    SortDescSortedPermutation(xs, key);
    SortedPrefixLargest(s, key, n);
    assert s == s[..n] + s[n..];
    assert multiset(xs) == multiset(s[..n]) + multiset(s[n..]);
  }

  /** Python's `xs[:limit]`; a negative limit counts from the end. */
  function PyTake<T>(xs: seq<T>, limit: int): (r: seq<T>)
    ensures limit >= 0 ==> |r| == if limit < |xs| then limit else |xs|
    ensures limit < 0 ==> |r| == if |xs| + limit > 0 then |xs| + limit else 0
    ensures r == xs[..|r|]
  {
    if limit >= 0 then (if limit < |xs| then xs[..limit] else xs)
    else (if |xs| + limit > 0 then xs[..|xs| + limit] else [])
  }

  /** A bound of `slice` as an index into a sequence of length `n`: a negative
      bound counts from the end, and the result lies in 0..n. */
  function Clamp(i: int, n: nat): (r: nat)
    ensures r <= n
    ensures 0 <= i <= n ==> r == i
    ensures i > n ==> r == n
    ensures i < 0 ==> r == (if n + i > 0 then n + i else 0)
  {
    if i < 0 then (if n + i > 0 then n + i else 0) else if i < n then i else n
  }

  /** JavaScript's `xs.slice(start, end)`: negative bounds count from the end,
      and both bounds are clamped to the sequence. */
  function JsSlice<T>(xs: seq<T>, start: int, end: int): (r: seq<T>)
    ensures |r| <= |xs|
    ensures var s, e := Clamp(start, |xs|), Clamp(end, |xs|);
      r == if s < e then xs[s..e] else []
    ensures 0 <= start <= end <= |xs| ==> r == xs[start..end]
  {
    var n := |xs|;
    var s := if start < 0 then (if n + start > 0 then n + start else 0) else (if start < n then start else n);
    var e := if end < 0 then (if n + end > 0 then n + end else 0) else (if end < n then end else n);
    if s < e then xs[s..e] else []
  }
}
