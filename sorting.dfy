/**
 * The stable descending sort the scripts rely on: Python's `list.sort(key=..., reverse=True)`
 * and JavaScript's `Array.prototype.sort` with a descending comparator both keep equal
 * keys in their original order.  Modelled as an insertion sort that puts each earlier
 * element ahead of every later element with the same key.
 */
module Sorting {
  import opened Numerics

  /** Keys never increase along the sequence. */
  predicate NonIncreasing<T>(xs: seq<T>, key: T -> real)
  {
    forall i, j :: 0 <= i < j < |xs| ==> key(xs[i]) >= key(xs[j])
  }

  /** Inserts x into ys ahead of the first element whose key does not exceed key(x). */
  function Insert<T>(x: T, ys: seq<T>, key: T -> real): (r: seq<T>)
    ensures |r| == |ys| + 1
    decreases |ys|
  {
    if |ys| == 0 then [x]
    else if key(x) >= key(ys[0]) then [x] + ys
    else [ys[0]] + Insert(x, ys[1..], key)
  }

  function SortDesc<T>(xs: seq<T>, key: T -> real): (r: seq<T>)
    ensures |r| == |xs|
    decreases |xs|
  {
    if |xs| == 0 then [] else Insert(xs[0], SortDesc(xs[1..], key), key)
  }

  lemma {:induction false} InsertPermutes<T>(x: T, ys: seq<T>, key: T -> real)
    ensures multiset(Insert(x, ys, key)) == multiset{x} + multiset(ys)
    decreases |ys|
  {
    if |ys| > 0 && key(x) < key(ys[0]) {
      InsertPermutes(x, ys[1..], key);
      assert ys == [ys[0]] + ys[1..];
    }
  }

  lemma {:induction false} InsertKeepsOrder<T>(x: T, ys: seq<T>, key: T -> real)
    requires NonIncreasing(ys, key)
    ensures NonIncreasing(Insert(x, ys, key), key)
    decreases |ys|
  {
    if |ys| > 0 && key(x) < key(ys[0]) {
      var rest := Insert(x, ys[1..], key);
      InsertKeepsOrder(x, ys[1..], key);
      InsertPermutes(x, ys[1..], key);
      forall k | 0 <= k < |rest|
        ensures key(ys[0]) >= key(rest[k])
      {
        assert rest[k] in multiset(rest);
        if rest[k] != x {
          assert rest[k] in ys[1..];
        }
      }
    }
  }

  /** The sort rearranges its input: the same elements, each as often. */
  lemma {:induction false} SortDescPermutes<T>(xs: seq<T>, key: T -> real)
    ensures multiset(SortDesc(xs, key)) == multiset(xs)
    decreases |xs|
  {
    if |xs| > 0 {
      SortDescPermutes(xs[1..], key);
      InsertPermutes(xs[0], SortDesc(xs[1..], key), key);
      assert xs == [xs[0]] + xs[1..];
    }
  }

  /** The sort's result has non-increasing keys. */
  lemma {:induction false} SortDescOrdered<T>(xs: seq<T>, key: T -> real)
    ensures NonIncreasing(SortDesc(xs, key), key)
    decreases |xs|
  {
    if |xs| > 0 {
      SortDescOrdered(xs[1..], key);
      InsertKeepsOrder(xs[0], SortDesc(xs[1..], key), key);
    }
  }

  /** The sort returns the same elements with non-increasing keys. */
  lemma SortDescCorrect<T>(xs: seq<T>, key: T -> real)
    ensures multiset(SortDesc(xs, key)) == multiset(xs)
    ensures NonIncreasing(SortDesc(xs, key), key)
  {
    SortDescPermutes(xs, key);
    SortDescOrdered(xs, key);
  }

  /** The sorted sequence has the same length and the same members, ordered by key. */
  lemma SortDescFacts<T>(xs: seq<T>, key: T -> real)
    ensures |SortDesc(xs, key)| == |xs|
    ensures forall k :: 0 <= k < |xs| ==> SortDesc(xs, key)[k] in xs
    ensures forall x :: x in xs ==> x in SortDesc(xs, key)
    ensures NonIncreasing(SortDesc(xs, key), key)
  {
    var r := SortDesc(xs, key);
    SortDescCorrect(xs, key);
    assert |multiset(r)| == |multiset(xs)|;
    forall k | 0 <= k < |r|
      ensures r[k] in xs
    {
      assert r[k] in multiset(r);
    }
    forall x | x in xs
      ensures x in r
    {
      assert x in multiset(xs);
    }
  }

  /** The elements whose key is c, in the order the sequence holds them. */
  function WithKey<T>(xs: seq<T>, key: T -> real, c: real): seq<T>
    decreases |xs|
  {
    if |xs| == 0 then []
    else (if key(xs[0]) == c then [xs[0]] else []) + WithKey(xs[1..], key, c)
  }

  /** Inserting x adds it in front of the elements sharing its key and leaves the others' order alone. */
  lemma {:induction false} InsertWithKey<T>(x: T, ys: seq<T>, key: T -> real, c: real)
    ensures WithKey(Insert(x, ys, key), key, c) == (if key(x) == c then [x] else []) + WithKey(ys, key, c)
    decreases |ys|
  {
    var r := Insert(x, ys, key);
    if |ys| == 0 {
      assert r[1..] == [];
    } else if key(x) >= key(ys[0]) {
      assert r[0] == x && r[1..] == ys;
    } else {
      assert r[0] == ys[0] && r[1..] == Insert(x, ys[1..], key);
      InsertWithKey(x, ys[1..], key, c);
    }
  }

  /**
   * The sort is stable: for every key, the elements carrying it come out in the order they
   * went in.
   */
  lemma {:induction false} SortDescStable<T>(xs: seq<T>, key: T -> real, c: real)
    ensures WithKey(SortDesc(xs, key), key, c) == WithKey(xs, key, c)
    decreases |xs|
  {
    if |xs| > 0 {
      SortDescStable(xs[1..], key, c);
      InsertWithKey(xs[0], SortDesc(xs[1..], key), key, c);
    }
  }

  lemma {:induction false} DistinctCounts<T>(xs: seq<T>, x: T)
    requires Distinct(xs)
    ensures multiset(xs)[x] <= 1
    decreases |xs|
  {
    if |xs| > 0 {
      DistinctCounts(xs[1..], x);
      assert xs == [xs[0]] + xs[1..];
    }
  }

  /** A rearrangement of a sequence without repeats has no repeats. */
  lemma PermutationKeepsDistinct<T>(xs: seq<T>, ys: seq<T>)
    requires Distinct(xs) && multiset(xs) == multiset(ys)
    ensures Distinct(ys)
  {
    forall i, j | 0 <= i < j < |ys|
      ensures ys[i] != ys[j]
    {
      DistinctCounts(xs, ys[i]);
      if ys[i] == ys[j] {
        RepeatCounts(ys, i, j);
      }
    }
  }

  lemma RepeatCounts<T>(ys: seq<T>, i: int, j: int)
    requires 0 <= i < j < |ys| && ys[i] == ys[j]
    ensures multiset(ys)[ys[i]] >= 2
  {
    assert ys == ys[..i] + [ys[i]] + ys[i + 1..j] + [ys[j]] + ys[j + 1..];
  }
}
