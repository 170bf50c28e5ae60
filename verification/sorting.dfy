/**
  `Array.prototype.sort` with the comparator `(a, b) => key(b) - key(a)`:
  a stable sort into non-increasing key order (App.tsx:105, 114).
*/
module StableSort {

  /** Keys never increase from left to right. */
  predicate SortedDesc<T>(xs: seq<T>, key: T -> int)
  {
    forall i, j :: 0 <= i < j < |xs| ==> key(xs[i]) >= key(xs[j])
  }

  /** The elements of `xs` whose key is `k`, in their order in `xs`. */
  function WithKey<T>(xs: seq<T>, key: T -> int, k: int): seq<T>
  {
    if xs == [] then []
    else (if key(xs[0]) == k then [xs[0]] else []) + WithKey(xs[1..], key, k)
  }

  /** Sum of the keys. */
  function SumKeys<T>(xs: seq<T>, key: T -> int): int
  {
    if xs == [] then 0 else key(xs[0]) + SumKeys(xs[1..], key)
  }

  /** Puts `x` in front of the first element whose key does not exceed its own. */
  function Insert<T>(x: T, xs: seq<T>, key: T -> int): seq<T>
  {
    if xs == [] then [x]
    else if key(xs[0]) <= key(x) then [x] + xs
    else [xs[0]] + Insert(x, xs[1..], key)
  }

  lemma {:induction false} InsertSorted<T>(x: T, xs: seq<T>, key: T -> int)
    requires SortedDesc(xs, key)
    ensures SortedDesc(Insert(x, xs, key), key)
    ensures |Insert(x, xs, key)| == |xs| + 1
    ensures Insert(x, xs, key)[0] == x || (xs != [] && Insert(x, xs, key)[0] == xs[0])
    decreases |xs|
  {
    if xs != [] && key(xs[0]) > key(x) {
      InsertSorted(x, xs[1..], key);
    }
  }

  lemma {:induction false} InsertMultiset<T>(x: T, xs: seq<T>, key: T -> int)
    ensures multiset(Insert(x, xs, key)) == multiset{x} + multiset(xs)
    decreases |xs|
  {
    if xs != [] && key(xs[0]) > key(x) {
      InsertMultiset(x, xs[1..], key);
      assert xs == [xs[0]] + xs[1..];
    }
  }

  lemma {:induction false} InsertWithKey<T>(x: T, xs: seq<T>, key: T -> int, k: int)
    ensures WithKey(Insert(x, xs, key), key, k) == (if key(x) == k then [x] else []) + WithKey(xs, key, k)
    decreases |xs|
  {
    var ins := Insert(x, xs, key);
    if xs == [] {
      assert ins == [x];
      assert ins[1..] == [];
    } else if key(xs[0]) <= key(x) {
      assert ins[0] == x && ins[1..] == xs;
    } else {
      InsertWithKey(x, xs[1..], key, k);
      assert ins[0] == xs[0] && ins[1..] == Insert(x, xs[1..], key);
    }
  }

  lemma {:induction false} InsertSumKeys<T>(x: T, xs: seq<T>, key: T -> int)
    ensures SumKeys(Insert(x, xs, key), key) == key(x) + SumKeys(xs, key)
    decreases |xs|
  {
    var ins := Insert(x, xs, key);
    if xs == [] {
      assert ins[1..] == [];
    } else if key(xs[0]) <= key(x) {
      assert ins[0] == x && ins[1..] == xs;
    } else {
      InsertSumKeys(x, xs[1..], key);
      assert ins[0] == xs[0] && ins[1..] == Insert(x, xs[1..], key);
    }
  }

  /**
    The stable descending sort: the result is a permutation of the input in
    non-increasing key order, and the elements sharing a key keep their
    input order. Together these determine the result.
  */
  function SortDesc<T>(xs: seq<T>, key: T -> int): (r: seq<T>)
    ensures |r| == |xs|
    ensures SortedDesc(r, key)
    ensures multiset(r) == multiset(xs)
    ensures forall k :: WithKey(r, key, k) == WithKey(xs, key, k)
    ensures SumKeys(r, key) == SumKeys(xs, key)
    decreases |xs|
  {
    if xs == [] then []
    else
      var rest := SortDesc(xs[1..], key);
      InsertSorted(xs[0], rest, key);
      InsertMultiset(xs[0], rest, key);
      InsertSumKeys(xs[0], rest, key);
      assert xs == [xs[0]] + xs[1..];
      assert forall k :: WithKey(Insert(xs[0], rest, key), key, k) == WithKey(xs, key, k) by {
        forall k ensures WithKey(Insert(xs[0], rest, key), key, k) == WithKey(xs, key, k) {
          InsertWithKey(xs[0], rest, key, k);
        }
      }
      Insert(xs[0], rest, key)
  }
}
