/** `Array.prototype.sort` with a comparator of the form `(a, b) => key(b) - key(a)`: a stable
    sort into non-increasing key order. JavaScript engines have sorted stably since ES2019,
    and a stable sort's result is determined by its input, so it is modelled here by a
    stable insertion sort, both as a function on sequences and as a method working in place
    on an array. An ascending sort on `key` is the descending sort on `-key`. */
module Sorting {
  import opened Js

  /** `key` never increases along `s`. */
  predicate SortedDesc<T>(s: seq<T>, key: T -> real) {
    forall i, j :: 0 <= i < j < |s| ==> key(s[i]) >= key(s[j])
  }

  /** Puts `x` behind every element of `s` whose key is at least `key(x)`, which is
      where a stable sort places an element that came after all of `s` in its input. */
  function Insert<T>(s: seq<T>, x: T, key: T -> real): seq<T>
    decreases |s|
  {
    if s == [] || key(s[|s| - 1]) >= key(x) then s + [x]
    else Insert(s[..|s| - 1], x, key) + [s[|s| - 1]]
  }

  /** The stable sort of `s` into non-increasing key order. */
  function SortDesc<T>(s: seq<T>, key: T -> real): seq<T>
    decreases |s|
  {
    if s == [] then [] else Insert(SortDesc(s[..|s| - 1], key), s[|s| - 1], key)
  }

  lemma {:induction false} InsertPermutes<T>(s: seq<T>, x: T, key: T -> real)
    ensures multiset(Insert(s, x, key)) == multiset(s) + multiset{x}
    ensures |Insert(s, x, key)| == |s| + 1
    decreases |s|
  {
    if s == [] || key(s[|s| - 1]) >= key(x) {
    } else {
      InsertPermutes(s[..|s| - 1], x, key);
      assert s == s[..|s| - 1] + [s[|s| - 1]];
    }
  }

  lemma {:induction false} InsertSorted<T>(s: seq<T>, x: T, key: T -> real)
    requires SortedDesc(s, key)
    ensures SortedDesc(Insert(s, x, key), key)
    decreases |s|
  {
    if s == [] || key(s[|s| - 1]) >= key(x) {
    } else {
      var init, last := s[..|s| - 1], s[|s| - 1];
      InsertSorted(init, x, key);
      InsertPermutes(init, x, key);
      var r := Insert(init, x, key);
      forall i | 0 <= i < |r| ensures key(r[i]) >= key(last) {
        assert r[i] in multiset(r);
        if r[i] != x {
          assert r[i] in multiset(init);
          var k :| 0 <= k < |init| && init[k] == r[i];
          assert init[k] == s[k];
        }
      }
    }
  }

  /** The sort returns its input rearranged into non-increasing key order. */
  lemma {:induction false} SortDescSortedAndPermutes<T>(s: seq<T>, key: T -> real)
    ensures SortedDesc(SortDesc(s, key), key)
    ensures multiset(SortDesc(s, key)) == multiset(s)
    ensures |SortDesc(s, key)| == |s|
    decreases |s|
  {
    if s != [] {
      var init, last := s[..|s| - 1], s[|s| - 1];
      var sortedInit := SortDesc(init, key);
      SortDescSortedAndPermutes(init, key);
      InsertSorted(sortedInit, last, key);
      InsertPermutes(sortedInit, last, key);
      assert SortDesc(s, key) == Insert(sortedInit, last, key);
      assert s == init + [last];
      assert multiset(s) == multiset(init) + multiset{last};
    }
  }

  /** An input already in order is returned unchanged: the sort never swaps elements of
      equal key, so sorting twice gives what sorting once gives. */
  lemma {:induction false} SortDescOfSorted<T>(s: seq<T>, key: T -> real)
    requires SortedDesc(s, key)
    ensures SortDesc(s, key) == s
    decreases |s|
  {
    if s != [] {
      var init := s[..|s| - 1];
      assert SortedDesc(init, key) by {
        forall i, j | 0 <= i < j < |init| ensures key(init[i]) >= key(init[j]) {
          assert init[i] == s[i] && init[j] == s[j];
        }
      }
      SortDescOfSorted(init, key);
      assert s == init + [s[|s| - 1]];
    }
  }

  /** The elements of `s` whose key is `c`, in their order in `s`. */
  function KeyEq<T>(s: seq<T>, key: T -> real, c: real): seq<T>
    decreases |s|
  {
    if s == [] then []
    else KeyEq(s[..|s| - 1], key, c) + (if key(s[|s| - 1]) == c then [s[|s| - 1]] else [])
  }

  /** Inserting `x` places it after every element of its own key already present. */
  lemma {:induction false} InsertKeyEq<T>(s: seq<T>, x: T, key: T -> real, c: real)
    ensures KeyEq(Insert(s, x, key), key, c) == KeyEq(s, key, c) + (if key(x) == c then [x] else [])
    decreases |s|
  {
    if s == [] || key(s[|s| - 1]) >= key(x) {
      assert (s + [x])[..|s + [x]| - 1] == s;
    } else {
      var init, last := s[..|s| - 1], s[|s| - 1];
      var r := Insert(init, x, key);
      InsertKeyEq(init, x, key, c);
      assert (r + [last])[..|r + [last]| - 1] == r;
    }
  }

  /** The sort is stable: for every key, the elements with that key come out in the order
      they went in. */
  lemma {:induction false} SortDescStable<T>(s: seq<T>, key: T -> real, c: real)
    ensures KeyEq(SortDesc(s, key), key, c) == KeyEq(s, key, c)
    decreases |s|
  {
    if s != [] {
      var init, last := s[..|s| - 1], s[|s| - 1];
      SortDescStable(init, key, c);
      InsertKeyEq(SortDesc(init, key), last, key, c);
    }
  }

  lemma SortDescIdempotent<T>(s: seq<T>, key: T -> real)
    ensures SortDesc(SortDesc(s, key), key) == SortDesc(s, key)
  {
    SortDescSortedAndPermutes(s, key);
    SortDescOfSorted(SortDesc(s, key), key);
  }

  /** Keeping the first `n` of the sorted input keeps the `n` best: the result is sorted,
      is drawn from the input, has `min(n, |s|)` elements, and every element left out has a
      key no larger than that of any element kept. */
  lemma TopOfSortDesc<T>(s: seq<T>, key: T -> real, n: nat)
    ensures |Take(SortDesc(s, key), n)| == (if |s| <= n then |s| else n)
    ensures SortedDesc(Take(SortDesc(s, key), n), key)
    ensures multiset(Take(SortDesc(s, key), n)) <= multiset(s)
    ensures forall x, y ::
      (x in multiset(s) - multiset(Take(SortDesc(s, key), n)) && y in Take(SortDesc(s, key), n)) ==>
      key(x) <= key(y)
  {
    var t := SortDesc(s, key);
    SortDescSortedAndPermutes(s, key);
    var k := if |t| <= n then |t| else n;
    assert Take(t, n) == t[..k];
    SortedPrefix(t, key, k);
  }

  /** A prefix of a sorted sequence is sorted, is part of it, and no element left out
      has a larger key than one kept. */
  lemma SortedPrefix<T>(t: seq<T>, key: T -> real, k: nat)
    requires k <= |t| && SortedDesc(t, key)
    ensures SortedDesc(t[..k], key)
    ensures multiset(t[..k]) <= multiset(t)
    ensures forall x, y :: x in multiset(t) - multiset(t[..k]) && y in t[..k] ==> key(x) <= key(y)
  {
    var r, rest := t[..k], t[k..];
    assert t == r + rest;
    assert multiset(t) == multiset(r) + multiset(rest);
    assert SortedDesc(r, key) by {
      forall i, j | 0 <= i < j < |r| ensures key(r[i]) >= key(r[j]) {
        assert r[i] == t[i] && r[j] == t[j];
      }
    }
    forall x, y | x in multiset(t) - multiset(r) && y in r ensures key(x) <= key(y) {
      assert x in multiset(rest);
      var i :| 0 <= i < k && r[i] == y;
      var j :| 0 <= j < |rest| && rest[j] == x;
      assert t[i] == y && t[k + j] == x;
    }
  }

  /** `Insert` places `x` behind the last element whose key is at least `key(x)`: when
      every key from position `j` on is smaller and the key before `j` is not, `x` lands at
      position `j`. */
  lemma {:induction false} InsertAt<T>(sorted: seq<T>, x: T, key: T -> real, j: nat)
    requires j <= |sorted|
    requires j == 0 || key(sorted[j - 1]) >= key(x)
    requires forall k :: j <= k < |sorted| ==> key(sorted[k]) < key(x)
    ensures Insert(sorted, x, key) == sorted[..j] + [x] + sorted[j..]
    decreases |sorted|
  {
    if j < |sorted| {
      var init, last := sorted[..|sorted| - 1], sorted[|sorted| - 1];
      assert key(last) < key(x);
      assert init[..j] == sorted[..j];
      if j > 0 {
        assert init[j - 1] == sorted[j - 1];
      }
      assert forall k :: j <= k < |init| ==> init[k] == sorted[k];
      InsertAt(init, x, key, j);
      assert sorted[j..] == init[j..] + [last];
    }
  }

  /** A sequence holding `sorted[..j]`, then `x`, then the rest of `sorted` moved up by one. */
  lemma ShiftedIsSplice<T>(s: seq<T>, sorted: seq<T>, x: T, j: nat)
    requires j <= |sorted| && |s| == |sorted| + 1
    requires forall k :: 0 <= k < j ==> s[k] == sorted[k]
    requires s[j] == x
    requires forall k :: j < k < |s| ==> s[k] == sorted[k - 1]
    ensures s == sorted[..j] + [x] + sorted[j..]
  {
  }

  /** Moves `a[i]` down into the already sorted `a[..i]`, as one pass of insertion sort. */
  method InsertLast<T>(a: array<T>, i: nat, key: T -> real)
    requires i < a.Length
    modifies a
    ensures a[..i + 1] == Insert(old(a[..i]), old(a[i]), key)
    ensures a[i + 1..] == old(a[i + 1..])
  {
    ghost var sorted := a[..i];
    var x := a[i];
    var j := i;
    while j > 0 && key(a[j - 1]) < key(x)
      invariant 0 <= j <= i
      invariant forall k :: 0 <= k < j ==> a[k] == sorted[k]
      invariant a[j] == x
      invariant forall k :: j < k <= i ==> a[k] == sorted[k - 1]
      invariant forall k :: i < k < a.Length ==> a[k] == old(a[k])
      invariant forall k :: j <= k < i ==> key(sorted[k]) < key(x)
    {
      a[j - 1], a[j] := x, a[j - 1];
      j := j - 1;
    }
    InsertAt(sorted, x, key, j);
    ShiftedIsSplice(a[..i + 1], sorted, x, j);
  }

  /** Sorts `a` in place, stably, into non-increasing key order. */
  method SortInPlace<T>(a: array<T>, key: T -> real)
    modifies a
    ensures a[..] == SortDesc(old(a[..]), key)
  {
    ghost var input := a[..];
    var i := 0;
    while i < a.Length
      invariant 0 <= i <= a.Length
      invariant a[..i] == SortDesc(input[..i], key)
      invariant a[i..] == input[i..]
    {
      assert a[i] == input[i];
      InsertLast(a, i, key);
      assert input[..i + 1] == input[..i] + [input[i]];
      i := i + 1;
    }
    assert input[..a.Length] == input;
    assert a[..] == a[..a.Length];
  }
}
