/**
 * The array primitives the services use: `filter`, the stable
 * `sort((a, b) => key(b) - key(a))` (newest or best first) and `slice(0, n)`.
 */
module Seqs {

  /** `xs.filter(p)`: the elements satisfying `p`, in their original order. */
  function Filter<T>(xs: seq<T>, p: T -> bool): (r: seq<T>)
    ensures |r| <= |xs|
    ensures forall i :: 0 <= i < |r| ==> p(r[i])
  {
    if xs == [] then []
    else
      var rest := Filter(xs[1..], p);
      if p(xs[0]) then [xs[0]] + rest else rest
  }

  /** Filtering adds nothing. */
  lemma {:induction false} FilterSubset<T>(xs: seq<T>, p: T -> bool, x: T)
    requires x in Filter(xs, p)
    ensures x in xs
  {
    if x != xs[0] {
      assert p(xs[0]) ==> Filter(xs, p) == [xs[0]] + Filter(xs[1..], p);
      FilterSubset(xs[1..], p, x);
    }
  }

  /** Nothing that satisfies `p` is dropped. */
  lemma {:induction false} FilterComplete<T>(xs: seq<T>, p: T -> bool, i: int)
    requires 0 <= i < |xs| && p(xs[i])
    ensures xs[i] in Filter(xs, p)
  {
    if i > 0 {
      FilterComplete(xs[1..], p, i - 1);
    }
  }

  /** Filtering keeps the order: it distributes over concatenation. */
  lemma {:induction false} FilterConcat<T>(a: seq<T>, b: seq<T>, p: T -> bool)
    ensures Filter(a + b, p) == Filter(a, p) + Filter(b, p)
  {
    if a == [] {
      assert a + b == b;
    } else {
      assert (a + b)[0] == a[0] && (a + b)[1..] == a[1..] + b;
      FilterConcat(a[1..], b, p);
    }
  }

  /** When every element passes, filtering changes nothing. */
  lemma {:induction false} FilterAll<T>(xs: seq<T>, p: T -> bool)
    requires forall i :: 0 <= i < |xs| ==> p(xs[i])
    ensures Filter(xs, p) == xs
  {
    if xs != [] {
      FilterAll(xs[1..], p);
    }
  }

  /** When no element passes, nothing is left. */
  lemma {:induction false} FilterNone<T>(xs: seq<T>, p: T -> bool)
    requires forall i :: 0 <= i < |xs| ==> !p(xs[i])
    ensures Filter(xs, p) == []
  {
    if xs != [] {
      FilterNone(xs[1..], p);
    }
  }

  /** The filter is empty exactly when no element passes. */
  lemma {:induction false} FilterEmpty<T>(xs: seq<T>, p: T -> bool)
    ensures Filter(xs, p) == [] <==> forall i :: 0 <= i < |xs| ==> !p(xs[i])
  {
    if exists i :: 0 <= i < |xs| && p(xs[i]) {
      var i :| 0 <= i < |xs| && p(xs[i]);
      FilterComplete(xs, p, i);
    } else {
      FilterNone(xs, p);
    }
  }

  /** The head of a non-empty filter is the first element that passes. */
  lemma {:induction false} FilterHead<T>(xs: seq<T>, p: T -> bool) returns (i: int)
    requires Filter(xs, p) != []
    ensures 0 <= i < |xs| && p(xs[i]) && Filter(xs, p)[0] == xs[i]
    ensures forall j :: 0 <= j < i ==> !p(xs[j])
  {
    if p(xs[0]) {
      i := 0;
    } else {
      var k := FilterHead(xs[1..], p);
      i := k + 1;
      assert xs[i] == xs[1..][k];
      forall j | 1 <= j < i
        ensures !p(xs[j])
      {
        assert xs[j] == xs[1..][j - 1];
      }
    }
  }

  /** An element survives the filter exactly when it is in `xs` and passes. */
  lemma FilterMembers<T>(xs: seq<T>, p: T -> bool)
    ensures forall x :: x in Filter(xs, p) <==> x in xs && p(x)
  {
    forall x | x in xs && p(x)
      ensures x in Filter(xs, p)
    {
      var i :| 0 <= i < |xs| && xs[i] == x;
      FilterComplete(xs, p, i);
    }
    forall x | x in Filter(xs, p)
      ensures x in xs && p(x)
    {
      FilterSubset(xs, p, x);
    }
  }

  /** Two filters in a row are one filter by the conjunction. */
  lemma {:induction false} FilterFilter<T>(xs: seq<T>, p: T -> bool, q: T -> bool, pq: T -> bool)
    requires forall x :: pq(x) == (p(x) && q(x))
    ensures Filter(Filter(xs, p), q) == Filter(xs, pq)
  {
    if xs != [] {
      FilterFilter(xs[1..], p, q, pq);
    }
  }

  /** `key(xs[i]) >= key(xs[j])` for every `i < j`. */
  ghost predicate SortedDesc<T>(xs: seq<T>, key: T -> int)
  {
    forall i, j :: 0 <= i < j < |xs| ==> key(xs[i]) >= key(xs[j])
  }

  /**
   * Places `x` after every element of `s` whose key is at least `key(x)`:
   * an element that comes later in the input never overtakes an earlier one
   * with the same key.
   */
  function Insert<T>(x: T, s: seq<T>, key: T -> int): (r: seq<T>)
    ensures |r| == |s| + 1
  {
    if s == [] then [x]
    else if key(s[0]) >= key(x) then [s[0]] + Insert(x, s[1..], key)
    else [x] + s
  }

  /** Inserting adds `x` and loses nothing. */
  lemma {:induction false} InsertPermutes<T>(x: T, s: seq<T>, key: T -> int)
    ensures multiset(Insert(x, s, key)) == multiset(s) + multiset{x}
  {
    if s != [] && key(s[0]) >= key(x) {
      InsertPermutes(x, s[1..], key);
      assert s == [s[0]] + s[1..];
    }
  }

  /** The stable descending sort of `xs` by `key`. */
  function SortDesc<T>(xs: seq<T>, key: T -> int): (r: seq<T>)
    ensures |r| == |xs|
  {
    if xs == [] then []
    else Insert(xs[|xs| - 1], SortDesc(xs[..|xs| - 1], key), key)
  }

  /** The sort is a permutation of its input. */
  lemma {:induction false} SortDescPermutes<T>(xs: seq<T>, key: T -> int)
    ensures multiset(SortDesc(xs, key)) == multiset(xs)
  {
    if xs != [] {
      var init := xs[..|xs| - 1];
      SortDescPermutes(init, key);
      InsertPermutes(xs[|xs| - 1], SortDesc(init, key), key);
      assert xs == init + [xs[|xs| - 1]];
    }
  }

  /** Every element of `Insert(x, s, key)` comes from `s` or is `x`. */
  lemma InsertElements<T>(x: T, s: seq<T>, key: T -> int, i: int)
    requires 0 <= i < |Insert(x, s, key)|
    ensures Insert(x, s, key)[i] == x || Insert(x, s, key)[i] in s
  {
    var r := Insert(x, s, key);
    InsertPermutes(x, s, key);
    assert r[i] in multiset(r);
  }

  lemma {:induction false} InsertSorted<T>(x: T, s: seq<T>, key: T -> int)
    requires SortedDesc(s, key)
    ensures SortedDesc(Insert(x, s, key), key)
  {
    var r := Insert(x, s, key);
    if s == [] {
    } else if key(s[0]) >= key(x) {
      var t := Insert(x, s[1..], key);
      InsertSorted(x, s[1..], key);
      assert r == [s[0]] + t;
      forall i, j | 0 <= i < j < |r|
        ensures key(r[i]) >= key(r[j])
      {
        if i == 0 {
          InsertElements(x, s[1..], key, j - 1);
          if r[j] != x {
            var m :| 0 <= m < |s[1..]| && s[1..][m] == r[j];
            assert s[m + 1] == r[j];
          }
        } else {
          assert r[i] == t[i - 1] && r[j] == t[j - 1];
        }
      }
    } else {
      assert r == [x] + s;
      forall i, j | 0 <= i < j < |r|
        ensures key(r[i]) >= key(r[j])
      {
        if i == 0 {
          assert key(s[0]) >= key(s[j - 1]);
        } else {
          assert r[i] == s[i - 1] && r[j] == s[j - 1];
        }
      }
    }
  }

  lemma {:induction false} SortDescSorted<T>(xs: seq<T>, key: T -> int)
    ensures SortedDesc(SortDesc(xs, key), key)
  {
    if xs != [] {
      SortDescSorted(xs[..|xs| - 1], key);
      InsertSorted(xs[|xs| - 1], SortDesc(xs[..|xs| - 1], key), key);
    }
  }

  /** The elements of `xs` whose key is `k`, in order. */
  function WithKey<T>(xs: seq<T>, key: T -> int, k: int): seq<T>
  {
    if xs == [] then []
    else (if key(xs[0]) == k then [xs[0]] else []) + WithKey(xs[1..], key, k)
  }

  lemma {:induction false} WithKeySnoc<T>(xs: seq<T>, x: T, key: T -> int, k: int)
    ensures WithKey(xs + [x], key, k) == WithKey(xs, key, k) + (if key(x) == k then [x] else [])
  {
    if xs != [] {
      assert (xs + [x])[1..] == xs[1..] + [x];
      WithKeySnoc(xs[1..], x, key, k);
    }
  }

  lemma {:induction false} WithKeyNone<T>(xs: seq<T>, key: T -> int, k: int)
    requires forall i :: 0 <= i < |xs| ==> key(xs[i]) < k
    ensures WithKey(xs, key, k) == []
  {
    if xs != [] {
      WithKeyNone(xs[1..], key, k);
    }
  }

  /** Indexing into a concatenation. */
  lemma ConcatAt<T>(a: seq<T>, b: seq<T>, k: int)
    requires 0 <= k < |a| + |b|
    ensures (a + b)[k] == if k < |a| then a[k] else b[k - |a|]
  {
  }

  /** The images `mk(l, f)` of one `l` with each `f` in turn that satisfy `keep`. */
  function RowOf<L, F, P>(l: L, fs: seq<F>, mk: (L, F) -> P, keep: P -> bool): seq<P>
  {
    if fs == [] then []
    else
      var p := mk(l, fs[|fs| - 1]);
      RowOf(l, fs[..|fs| - 1], mk, keep) + if keep(p) then [p] else []
  }

  /** The rows of each `l` in turn: the filtered cross product, `ls`-major. */
  function CrossOf<L, F, P>(ls: seq<L>, fs: seq<F>, mk: (L, F) -> P, keep: P -> bool): seq<P>
  {
    if ls == [] then []
    else CrossOf(ls[..|ls| - 1], fs, mk, keep) + RowOf(ls[|ls| - 1], fs, mk, keep)
  }

  /** An element of a row is the image of one `f` and satisfies `keep`. */
  lemma {:induction false} RowOfElement<L, F, P>(l: L, fs: seq<F>, mk: (L, F) -> P, keep: P -> bool, k: int) returns (j: int)
    requires 0 <= k < |RowOf(l, fs, mk, keep)|
    ensures 0 <= j < |fs| && RowOf(l, fs, mk, keep)[k] == mk(l, fs[j]) && keep(mk(l, fs[j]))
    decreases |fs|
  {
    var init, p := fs[..|fs| - 1], mk(l, fs[|fs| - 1]);
    var rest := RowOf(l, init, mk, keep);
    ConcatAt(rest, if keep(p) then [p] else [], k);
    if k < |rest| {
      j := RowOfElement(l, init, mk, keep, k);
      assert init[j] == fs[j];
    } else {
      j := |fs| - 1;
    }
  }

  /** An element of the cross product is the image of one `l` with one `f` and satisfies `keep`. */
  lemma {:induction false} CrossOfElement<L, F, P>(ls: seq<L>, fs: seq<F>, mk: (L, F) -> P, keep: P -> bool, k: int)
    returns (i: int, j: int)
    requires 0 <= k < |CrossOf(ls, fs, mk, keep)|
    ensures 0 <= i < |ls| && 0 <= j < |fs| && CrossOf(ls, fs, mk, keep)[k] == mk(ls[i], fs[j]) && keep(mk(ls[i], fs[j]))
    decreases |ls|
  {
    var init := ls[..|ls| - 1];
    var rest, row := CrossOf(init, fs, mk, keep), RowOf(ls[|ls| - 1], fs, mk, keep);
    ConcatAt(rest, row, k);
    if k < |rest| {
      i, j := CrossOfElement(init, fs, mk, keep, k);
      assert init[i] == ls[i];
    } else {
      i := |ls| - 1;
      j := RowOfElement(ls[i], fs, mk, keep, k - |rest|);
    }
  }

  /** Every image that satisfies `keep` is in its row. */
  lemma {:induction false} RowOfComplete<L, F, P>(l: L, fs: seq<F>, mk: (L, F) -> P, keep: P -> bool, j: int)
    requires 0 <= j < |fs| && keep(mk(l, fs[j]))
    ensures mk(l, fs[j]) in RowOf(l, fs, mk, keep)
    decreases |fs|
  {
    if j < |fs| - 1 {
      var init := fs[..|fs| - 1];
      assert init[j] == fs[j];
      RowOfComplete(l, init, mk, keep, j);
    }
  }

  /** Every image that satisfies `keep` is in the cross product. */
  lemma {:induction false} CrossOfComplete<L, F, P>(ls: seq<L>, fs: seq<F>, mk: (L, F) -> P, keep: P -> bool, i: int, j: int)
    requires 0 <= i < |ls| && 0 <= j < |fs| && keep(mk(ls[i], fs[j]))
    ensures mk(ls[i], fs[j]) in CrossOf(ls, fs, mk, keep)
    decreases |ls|
  {
    if i < |ls| - 1 {
      var init := ls[..|ls| - 1];
      assert init[i] == ls[i];
      CrossOfComplete(init, fs, mk, keep, i, j);
    } else {
      RowOfComplete(ls[i], fs, mk, keep, j);
    }
  }

  /** One more `f` extends a row by its image, when that image satisfies `keep`. */
  lemma RowOfSnoc<L, F, P>(l: L, fs: seq<F>, mk: (L, F) -> P, keep: P -> bool, j: int)
    requires 0 <= j < |fs|
    ensures RowOf(l, fs[..j + 1], mk, keep) == RowOf(l, fs[..j], mk, keep) + if keep(mk(l, fs[j])) then [mk(l, fs[j])] else []
  {
    assert fs[..j + 1][..j] == fs[..j];
  }

  /** One more `l` extends the cross product by its row. */
  lemma CrossOfSnoc<L, F, P>(ls: seq<L>, fs: seq<F>, mk: (L, F) -> P, keep: P -> bool, i: int)
    requires 0 <= i < |ls|
    ensures CrossOf(ls[..i + 1], fs, mk, keep) == CrossOf(ls[..i], fs, mk, keep) + RowOf(ls[i], fs, mk, keep)
  {
    assert ls[..i + 1][..i] == ls[..i];
  }

  lemma AppendAssoc<T>(a: seq<T>, b: seq<T>, c: seq<T>)
    ensures a + (b + c) == (a + b) + c
  {
  }

  lemma SortedTail<T>(s: seq<T>, key: T -> int)
    requires s != [] && SortedDesc(s, key)
    ensures SortedDesc(s[1..], key)
  {
    forall i, j | 0 <= i < j < |s[1..]|
      ensures key(s[1..][i]) >= key(s[1..][j])
    {
      assert s[1..][i] == s[i + 1] && s[1..][j] == s[j + 1];
    }
  }

  /** An element whose key beats every key of a sorted `s` leads the keyed selection, which is otherwise unchanged. */
  lemma WithKeyInFront<T>(x: T, s: seq<T>, key: T -> int, k: int)
    requires SortedDesc(s, key) && (s != [] ==> key(x) > key(s[0]))
    ensures WithKey([x] + s, key, k) == WithKey(s, key, k) + (if key(x) == k then [x] else [])
  {
    var r := [x] + s;
    assert r[0] == x && r[1..] == s;
    if key(x) == k {
      forall i | 0 <= i < |s|
        ensures key(s[i]) < k
      {
        if i > 0 {
          assert key(s[0]) >= key(s[i]);
        }
      }
      WithKeyNone(s, key, k);
    }
  }

  lemma {:induction false} WithKeyInsert<T>(x: T, s: seq<T>, key: T -> int, k: int)
    requires SortedDesc(s, key)
    ensures WithKey(Insert(x, s, key), key, k) == WithKey(s, key, k) + (if key(x) == k then [x] else [])
  {
    if s == [] {
    } else if key(s[0]) >= key(x) {
      var t := Insert(x, s[1..], key);
      SortedTail(s, key);
      WithKeyInsert(x, s[1..], key, k);
      var r := [s[0]] + t;
      assert Insert(x, s, key) == r;
      assert r[0] == s[0] && r[1..] == t;
      var a := if key(s[0]) == k then [s[0]] else [];
      var e := if key(x) == k then [x] else [];
      assert WithKey(r, key, k) == a + WithKey(t, key, k);
      assert WithKey(s, key, k) == a + WithKey(s[1..], key, k);
      AppendAssoc(a, WithKey(s[1..], key, k), e);
    } else {
      WithKeyInFront(x, s, key, k);
    }
  }


  /**
   * Stability: among elements with equal keys the sort keeps the input order,
   * so the elements with any one key appear in the output exactly as in the input.
   */
  lemma {:induction false} SortDescStable<T>(xs: seq<T>, key: T -> int, k: int)
    ensures WithKey(SortDesc(xs, key), key, k) == WithKey(xs, key, k)
  {
    if xs != [] {
      var init, x := xs[..|xs| - 1], xs[|xs| - 1];
      var sorted := SortDesc(init, key);
      assert SortDesc(xs, key) == Insert(x, sorted, key);
      SortDescStable(init, key, k);
      SortDescSorted(init, key);
      WithKeyInsert(x, sorted, key, k);
      assert xs == init + [x];
      WithKeySnoc(init, x, key, k);
    }
  }

  /** Filtering then sorting keeps exactly the passing elements, best first. */
  lemma SortedSelection<T>(xs: seq<T>, p: T -> bool, key: T -> int)
    ensures var r := SortDesc(Filter(xs, p), key);
      SortedDesc(r, key) && forall x :: x in r <==> x in xs && p(x)
  {
    var kept := Filter(xs, p);
    SortDescSorted(kept, key);
    SortDescPermutes(kept, key);
    FilterMembers(xs, p);
    forall x
      ensures x in SortDesc(kept, key) <==> x in kept
    {
      assert x in SortDesc(kept, key) <==> x in multiset(SortDesc(kept, key));
      assert x in kept <==> x in multiset(kept);
    }
  }

  /** A sequence that is already in descending order is returned unchanged. */
  lemma {:induction false} SortDescOfSorted<T>(xs: seq<T>, key: T -> int)
    requires SortedDesc(xs, key)
    ensures SortDesc(xs, key) == xs
  {
    if xs != [] {
      var init := xs[..|xs| - 1];
      var last := xs[|xs| - 1];
      SortDescOfSorted(init, key);
      InsertAtEnd(last, init, key);
      assert xs == init + [last];
    }
  }

  lemma {:induction false} InsertAtEnd<T>(x: T, s: seq<T>, key: T -> int)
    requires forall i :: 0 <= i < |s| ==> key(s[i]) >= key(x)
    ensures Insert(x, s, key) == s + [x]
  {
    if s != [] {
      InsertAtEnd(x, s[1..], key);
    }
  }

  /** `xs.findIndex(p)`: the first position whose element passes, or -1. */
  function FindIndex<T>(xs: seq<T>, p: T -> bool): (r: int)
    ensures -1 <= r < |xs|
    ensures r >= 0 ==> p(xs[r]) && forall j :: 0 <= j < r ==> !p(xs[j])
    ensures r < 0 ==> forall j :: 0 <= j < |xs| ==> !p(xs[j])
  {
    if xs == [] then -1
    else if p(xs[0]) then 0
    else
      var k := FindIndex(xs[1..], p);
      assert forall j :: 1 <= j < |xs| ==> xs[j] == xs[1..][j - 1];
      if k < 0 then -1 else k + 1
  }

  /** A prefix of a descending sequence is descending, and no later element beats it. */
  lemma SortedPrefix<T>(xs: seq<T>, n: int, key: T -> int)
    requires SortedDesc(xs, key) && 0 <= n <= |xs|
    ensures SortedDesc(xs[..n], key)
    ensures forall k, m :: 0 <= k < n <= m < |xs| ==> key(xs[..n][k]) >= key(xs[m])
  {
  }

  /** `xs.slice(0, n)`, where a negative `n` counts from the end. */
  function Slice0<T>(xs: seq<T>, n: int): (r: seq<T>)
    ensures r <= xs
    ensures 0 <= n ==> |r| == if n < |xs| then n else |xs|
    ensures n < 0 ==> |r| == if |xs| + n > 0 then |xs| + n else 0
  {
    if n >= 0 then (if n < |xs| then xs[..n] else xs)
    else if |xs| + n > 0 then xs[..|xs| + n] else []
  }
}
