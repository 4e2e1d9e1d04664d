/** Sequence operations behind the store's queries: filtering (a WHERE
    clause over a result list), mapping (building one response entry per
    row) and a stable sort by an integer key (ORDER BY, and Python's
    list.sort with a key function). */
module Seqs {

  /** The elements of `xs` that satisfy `p`, in their original order. */
  function Filter<T>(xs: seq<T>, p: T -> bool): (r: seq<T>)
    ensures |r| <= |xs|
    ensures forall i :: 0 <= i < |r| ==> r[i] in xs && p(r[i])
    ensures forall i :: 0 <= i < |xs| && p(xs[i]) ==> xs[i] in r
  {
    if xs == [] then []
    else (if p(xs[0]) then [xs[0]] else []) + Filter(xs[1..], p)
  }

  /** Nothing passes a condition no element meets. */
  lemma {:induction false} FilterNone<T>(xs: seq<T>, p: T -> bool)
    requires forall i :: 0 <= i < |xs| ==> !p(xs[i])
    ensures Filter(xs, p) == []
  {
    if xs != [] {
      FilterNone(xs[1..], p);
    }
  }

  /** Filtering distributes over concatenation. */
  lemma {:induction false} FilterConcat<T>(a: seq<T>, b: seq<T>, p: T -> bool)
    ensures Filter(a + b, p) == Filter(a, p) + Filter(b, p)
  {
    if a == [] {
      assert a + b == b;
    } else {
      assert (a + b)[0] == a[0];
      assert (a + b)[1..] == a[1..] + b;
      FilterConcat(a[1..], b, p);
    }
  }

  /** Filtering a prefix extended by one element: the step of a loop that
      scans a list and keeps the matching elements. */
  lemma FilterSnoc<T>(xs: seq<T>, i: nat, p: T -> bool)
    requires i < |xs|
    ensures Filter(xs[..i + 1], p) == Filter(xs[..i], p) + (if p(xs[i]) then [xs[i]] else [])
  {
    assert xs[..i + 1] == xs[..i] + [xs[i]];
    FilterConcat(xs[..i], [xs[i]], p);
    assert [xs[i]][1..] == [];
  }

  /** Two successive filters are one filter by the conjunction. */
  lemma {:induction false} FilterFilter<T>(xs: seq<T>, p: T -> bool, q: T -> bool, both: T -> bool)
    requires forall x :: x in xs ==> (both(x) <==> p(x) && q(x))
    ensures Filter(Filter(xs, p), q) == Filter(xs, both)
  {
    if xs != [] {
      var head, rest := xs[0], xs[1..];
      assert forall x :: x in rest ==> x in xs;
      FilterFilter(rest, p, q, both);
      var kept := if p(head) then [head] else [];
      assert Filter(xs, p) == kept + Filter(rest, p);
      FilterConcat(kept, Filter(rest, p), q);
      assert Filter(kept, q) == if both(head) then [head] else [] by {
        if p(head) {
          assert kept[1..] == [];
        }
      }
    }
  }

  /** Filters that agree on every element give the same list. */
  lemma {:induction false} FilterCongruent<T>(xs: seq<T>, p: T -> bool, q: T -> bool)
    requires forall x :: x in xs ==> (p(x) <==> q(x))
    ensures Filter(xs, p) == Filter(xs, q)
  {
    if xs != [] {
      FilterCongruent(xs[1..], p, q);
    }
  }

  /** A weaker condition keeps at least as many elements. */
  lemma {:induction false} FilterCountMonotone<T>(xs: seq<T>, p: T -> bool, q: T -> bool)
    requires forall x :: x in xs ==> p(x) ==> q(x)
    ensures |Filter(xs, p)| <= |Filter(xs, q)|
  {
    if xs != [] {
      FilterCountMonotone(xs[1..], p, q);
    }
  }

  /** When `either` holds exactly where one of two exclusive conditions
      holds, its count is the sum of their counts. */
  lemma {:induction false} FilterCountSplit<T>(xs: seq<T>, p: T -> bool, q: T -> bool, either: T -> bool)
    requires forall x :: x in xs ==> (either(x) <==> p(x) || q(x))
    requires forall x :: x in xs ==> !(p(x) && q(x))
    ensures |Filter(xs, either)| == |Filter(xs, p)| + |Filter(xs, q)|
  {
    if xs != [] {
      FilterCountSplit(xs[1..], p, q, either);
    }
  }

  /** Applies `f` to every element, keeping the order. */
  function MapSeq<A, B>(xs: seq<A>, f: A -> B): (r: seq<B>)
    ensures |r| == |xs|
    ensures forall i :: 0 <= i < |xs| ==> r[i] == f(xs[i])
  {
    if xs == [] then [] else MapSeq(xs[..|xs| - 1], f) + [f(xs[|xs| - 1])]
  }

  /** The image of a member is a member of the image. */
  lemma MapSeqIn<A, B>(xs: seq<A>, f: A -> B, x: A)
    requires x in xs
    ensures f(x) in MapSeq(xs, f)
  {
    var i :| 0 <= i < |xs| && xs[i] == x;
    assert MapSeq(xs, f)[i] == f(x);
  }

  /** A member of the image is the image of a member. */
  lemma MapSeqFrom<A, B>(xs: seq<A>, f: A -> B, y: B) returns (x: A)
    requires y in MapSeq(xs, f)
    ensures x in xs && y == f(x)
  {
    var i :| 0 <= i < |xs| && MapSeq(xs, f)[i] == y;
    x := xs[i];
  }

  /** The condition "has key `k`", as a filter. */
  function KeyIs<T>(key: T -> int, k: int): T -> bool {
    x => key(x) == k
  }

  /** Non-decreasing by `key`. */
  predicate SortedBy<T>(xs: seq<T>, key: T -> int) {
    forall i, j :: 0 <= i < j < |xs| ==> key(xs[i]) <= key(xs[j])
  }

  /** Places `x` before the first element whose key is not smaller, so that
      `x` precedes the elements of equal key already in `ys`. */
  function InsertBy<T>(x: T, ys: seq<T>, key: T -> int): seq<T> {
    if ys == [] || key(x) <= key(ys[0]) then [x] + ys
    else [ys[0]] + InsertBy(x, ys[1..], key)
  }

  /** Stable insertion sort by an integer key. */
  function SortBy<T>(xs: seq<T>, key: T -> int): seq<T> {
    if xs == [] then [] else InsertBy(xs[0], SortBy(xs[1..], key), key)
  }

  lemma {:induction false} InsertByPermutes<T>(x: T, ys: seq<T>, key: T -> int)
    ensures multiset(InsertBy(x, ys, key)) == multiset(ys) + multiset{x}
  {
    if ys != [] && key(x) > key(ys[0]) {
      InsertByPermutes(x, ys[1..], key);
      assert ys == [ys[0]] + ys[1..];
    }
  }

  /** Sorting only reorders: the result is a permutation of the input. */
  lemma {:induction false} SortByPermutes<T>(xs: seq<T>, key: T -> int)
    ensures multiset(SortBy(xs, key)) == multiset(xs)
  {
    if xs != [] {
      SortByPermutes(xs[1..], key);
      InsertByPermutes(xs[0], SortBy(xs[1..], key), key);
      assert xs == [xs[0]] + xs[1..];
    }
  }

  lemma {:induction false} InsertBySorted<T>(x: T, ys: seq<T>, key: T -> int)
    requires SortedBy(ys, key)
    ensures SortedBy(InsertBy(x, ys, key), key)
  {
    if ys != [] && key(x) > key(ys[0]) {
      InsertBySorted(x, ys[1..], key);
      InsertByPermutes(x, ys[1..], key);
      var rest := InsertBy(x, ys[1..], key);
      forall z | z in rest ensures key(ys[0]) <= key(z) {
        assert z in multiset(rest);
        assert z in multiset(ys[1..]) || z == x;
      }
    }
  }

  /** The sort orders its result by key. */
  lemma {:induction false} SortBySorted<T>(xs: seq<T>, key: T -> int)
    ensures SortedBy(SortBy(xs, key), key)
  {
    if xs != [] {
      SortBySorted(xs[1..], key);
      InsertBySorted(xs[0], SortBy(xs[1..], key), key);
    }
  }

  lemma {:induction false} InsertByStable<T>(x: T, ys: seq<T>, key: T -> int, k: int)
    requires SortedBy(ys, key)
    ensures Filter(InsertBy(x, ys, key), KeyIs(key, k))
         == (if key(x) == k then [x] else []) + Filter(ys, KeyIs(key, k))
  {
    var p := KeyIs(key, k);
    if ys == [] || key(x) <= key(ys[0]) {
      FilterConcat([x], ys, p);
    } else {
      InsertByStable(x, ys[1..], key, k);
      FilterConcat([ys[0]], InsertBy(x, ys[1..], key), p);
    }
  }

  /** Stability: among the elements of any one key, the sort keeps the
      input order. */
  lemma {:induction false} SortByStable<T>(xs: seq<T>, key: T -> int, k: int)
    ensures Filter(SortBy(xs, key), KeyIs(key, k)) == Filter(xs, KeyIs(key, k))
  {
    if xs != [] {
      SortByStable(xs[1..], key, k);
      SortBySorted(xs[1..], key);
      InsertByStable(xs[0], SortBy(xs[1..], key), key, k);
    }
  }
}
