/** `Array.prototype.sort` with a numeric comparator: a stable sort by an integer key. */
module StableSort {

  /** Inserts `x` behind every element whose key is not larger. */
  function Insert<T>(sorted: seq<T>, x: T, key: T -> int): seq<T> {
    if sorted == [] then [x]
    else
      var n := |sorted| - 1;
      if key(sorted[n]) <= key(x) then sorted + [x]
      else Insert(sorted[..n], x, key) + [sorted[n]]
  }

  function SortBy<T>(xs: seq<T>, key: T -> int): seq<T> {
    if xs == [] then [] else Insert(SortBy(xs[..|xs| - 1], key), xs[|xs| - 1], key)
  }

  ghost predicate Ascending<T>(xs: seq<T>, key: T -> int) {
    forall i, j :: 0 <= i < j < |xs| ==> key(xs[i]) <= key(xs[j])
  }

  /** The elements with key `k`, in order. */
  function WithKey<T>(xs: seq<T>, key: T -> int, k: int): seq<T> {
    if xs == [] then []
    else
      var n := |xs| - 1;
      WithKey(xs[..n], key, k) + (if key(xs[n]) == k then [xs[n]] else [])
  }

  lemma WithKeySnoc<T>(xs: seq<T>, x: T, key: T -> int, k: int)
    ensures WithKey(xs + [x], key, k) == WithKey(xs, key, k) + (if key(x) == k then [x] else [])
  {
    assert (xs + [x])[..|xs|] == xs;
  }

  lemma {:induction false} InsertPermutes<T>(sorted: seq<T>, x: T, key: T -> int)
    ensures multiset(Insert(sorted, x, key)) == multiset(sorted) + multiset{x}
  {
    if sorted != [] {
      var n := |sorted| - 1;
      assert sorted == sorted[..n] + [sorted[n]];
      InsertPermutes(sorted[..n], x, key);
    }
  }

  lemma {:induction false} InsertAscends<T>(sorted: seq<T>, x: T, key: T -> int)
    requires Ascending(sorted, key)
    ensures Ascending(Insert(sorted, x, key), key)
  {
    if sorted != [] {
      var n := |sorted| - 1;
      if key(sorted[n]) > key(x) {
        InsertAscends(sorted[..n], x, key);
        InsertPermutes(sorted[..n], x, key);
        var r := Insert(sorted[..n], x, key);
        forall i | 0 <= i < |r| ensures key(r[i]) <= key(sorted[n]) {
          assert r[i] in multiset(r);
        }
      }
    }
  }

  lemma {:induction false} InsertIsStable<T>(sorted: seq<T>, x: T, key: T -> int, k: int)
    ensures WithKey(Insert(sorted, x, key), key, k) == WithKey(sorted, key, k) + (if key(x) == k then [x] else [])
  {
    WithKeySnoc(sorted, x, key, k);
    if sorted != [] {
      var n := |sorted| - 1;
      if key(sorted[n]) > key(x) {
        InsertIsStable(sorted[..n], x, key, k);
        WithKeySnoc(Insert(sorted[..n], x, key), sorted[n], key, k);
      }
    }
  }

  /** The result is sorted, a permutation, and keeps equal keys in their order: the three
      together determine it. */
  lemma {:induction false} SortIsStable<T>(xs: seq<T>, key: T -> int, k: int)
    ensures Ascending(SortBy(xs, key), key)
    ensures multiset(SortBy(xs, key)) == multiset(xs)
    ensures WithKey(SortBy(xs, key), key, k) == WithKey(xs, key, k)
  {
    if xs != [] {
      var n := |xs| - 1;
      assert xs == xs[..n] + [xs[n]];
      SortIsStable(xs[..n], key, k);
      InsertPermutes(SortBy(xs[..n], key), xs[n], key);
      InsertAscends(SortBy(xs[..n], key), xs[n], key);
      InsertIsStable(SortBy(xs[..n], key), xs[n], key, k);
    }
  }
}
