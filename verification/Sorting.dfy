/**
 The stable sort that `Array.prototype.sort` promises (section 23.1.3.30 of ECMA-262), as a function, with the
 lemma that makes the choice of algorithm irrelevant: a stable sort of a sequence is unique.
 */
module Sorting {

  function Insert<T>(x: T, xs: seq<T>, key: T -> real): seq<T> {
    if xs == [] || key(x) <= key(xs[0]) then [x] + xs else [xs[0]] + Insert(x, xs[1..], key)
  }

  function StableSort<T>(xs: seq<T>, key: T -> real): seq<T> {
    if xs == [] then [] else Insert(xs[0], StableSort(xs[1..], key), key)
  }

  /** The elements of one key, in order. */
  function Bucket<T>(xs: seq<T>, key: T -> real, v: real): seq<T> {
    if xs == [] then []
    else (if key(xs[0]) == v then [xs[0]] else []) + Bucket(xs[1..], key, v)
  }

  ghost predicate Ascending<T>(xs: seq<T>, key: T -> real) {
    forall i, j :: 0 <= i < j < |xs| ==> key(xs[i]) <= key(xs[j])
  }

  /** What "stable sort" means: ascending keys, and equal keys keep their order. */
  ghost predicate IsStableSort<T>(ys: seq<T>, xs: seq<T>, key: T -> real) {
    Ascending(ys, key) && forall v :: Bucket(ys, key, v) == Bucket(xs, key, v)
  }

  lemma {:induction false} InsertKeepsBuckets<T>(x: T, xs: seq<T>, key: T -> real, v: real)
    ensures Bucket(Insert(x, xs, key), key, v) == Bucket([x] + xs, key, v)
  {
    assert ([x] + xs)[1..] == xs;
    if xs == [] || key(x) <= key(xs[0]) {
    } else {
      InsertKeepsBuckets(x, xs[1..], key, v);
      assert ([x] + xs[1..])[1..] == xs[1..];
      assert Insert(x, xs, key)[1..] == Insert(x, xs[1..], key);
    }
  }

  lemma {:induction false} InsertAscending<T>(x: T, xs: seq<T>, key: T -> real)
    requires Ascending(xs, key)
    ensures Ascending(Insert(x, xs, key), key)
  {
    if xs == [] || key(x) <= key(xs[0]) {
    } else {
      InsertAscending(x, xs[1..], key);
      InsertKeepsElements(x, xs[1..], key);
      var rest := Insert(x, xs[1..], key);
      forall k | 0 <= k < |rest| ensures key(xs[0]) <= key(rest[k]) {
        assert rest[k] in multiset(rest);
        assert rest[k] == x || rest[k] in multiset(xs[1..]);
      }
    }
  }

  lemma {:induction false} StableSortIsStable<T>(xs: seq<T>, key: T -> real)
    ensures IsStableSort(StableSort(xs, key), xs, key)
    ensures multiset(StableSort(xs, key)) == multiset(xs)
  {
    if xs == [] {
    } else {
      var rest := StableSort(xs[1..], key);
      StableSortIsStable(xs[1..], key);
      InsertAscending(xs[0], rest, key);
      InsertKeepsElements(xs[0], rest, key);
      assert xs == [xs[0]] + xs[1..];
      forall v ensures Bucket(StableSort(xs, key), key, v) == Bucket(xs, key, v) {
        InsertKeepsBuckets(xs[0], rest, key, v);
        assert ([xs[0]] + rest)[1..] == rest;
      }
    }
  }

  lemma {:induction false} InsertKeepsElements<T>(x: T, xs: seq<T>, key: T -> real)
    ensures multiset(Insert(x, xs, key)) == multiset{x} + multiset(xs)
  {
    if xs == [] || key(x) <= key(xs[0]) {
    } else {
      InsertKeepsElements(x, xs[1..], key);
      assert xs == [xs[0]] + xs[1..];
    }
  }

  lemma {:induction false} BucketHas<T>(xs: seq<T>, key: T -> real, v: real)
    ensures Bucket(xs, key, v) != [] ==> exists k :: 0 <= k < |xs| && key(xs[k]) == v
  {
    if xs != [] && key(xs[0]) != v {
      BucketHas(xs[1..], key, v);
      if k :| 0 <= k < |xs[1..]| && key(xs[1..][k]) == v {
        assert key(xs[k + 1]) == v;
      }
    }
  }

  /** Two ascending sequences with the same buckets start with the same element. */
  lemma SameHead<T>(a: seq<T>, b: seq<T>, key: T -> real)
    requires Ascending(a, key) && Ascending(b, key) && a != [] && b != []
    requires forall v :: Bucket(a, key, v) == Bucket(b, key, v)
    ensures a[0] == b[0]
  {
    var u, v := key(a[0]), key(b[0]);
    BucketStarts(a, key);
    BucketStarts(b, key);
    BucketHas(b, key, u);
    BucketHas(a, key, v);
    hide Bucket;
    assert Bucket(a, key, u) == Bucket(b, key, u) && Bucket(a, key, v) == Bucket(b, key, v);
    assert u == v;
  }

  lemma BucketStarts<T>(xs: seq<T>, key: T -> real)
    requires xs != []
    ensures Bucket(xs, key, key(xs[0])) != [] && Bucket(xs, key, key(xs[0]))[0] == xs[0]
  {
  }

  lemma {:induction false} SortedByBucketsIsUnique<T>(a: seq<T>, b: seq<T>, key: T -> real)
    requires Ascending(a, key) && Ascending(b, key)
    requires forall v :: Bucket(a, key, v) == Bucket(b, key, v)
    ensures a == b
  {
    if a == [] || b == [] {
      assert b != [] ==> Bucket(b, key, key(b[0])) != [];
      assert a != [] ==> Bucket(a, key, key(a[0])) != [];
    } else {
      SameHead(a, b, key);
      forall v ensures Bucket(a[1..], key, v) == Bucket(b[1..], key, v) {
        var h := if key(a[0]) == v then [a[0]] else [];
        assert Bucket(a, key, v) == h + Bucket(a[1..], key, v);
        assert Bucket(b, key, v) == h + Bucket(b[1..], key, v);
        assert Bucket(a[1..], key, v) == Bucket(a, key, v)[|h|..];
        assert Bucket(b[1..], key, v) == Bucket(b, key, v)[|h|..];
      }
      SortedByBucketsIsUnique(a[1..], b[1..], key);
      assert a == [a[0]] + a[1..] && b == [b[0]] + b[1..];
    }
  }

  /** Whatever stable algorithm ran, its result is `StableSort`'s. */
  lemma StableSortIsUnique<T>(ys: seq<T>, xs: seq<T>, key: T -> real)
    requires IsStableSort(ys, xs, key)
    ensures ys == StableSort(xs, key)
  {
    StableSortIsStable(xs, key);
    SortedByBucketsIsUnique(ys, StableSort(xs, key), key);
  }
}
