/** The stable sort that `Array.prototype.sort` performs on a copy of the
    filtered list, written as an insertion sort over the slice's comparator. */
module ProductSort {
  import opened Catalog

  /** Every earlier element may stand before every later one. */
  predicate Sorted(s: SortBy, xs: seq<Product>) {
    forall i, j :: 0 <= i < j < |xs| ==> Leq(s, xs[i], xs[j])
  }

  /** The elements of `xs` that tie with `k`, in order: for a stable sort
      this subsequence must come out as it went in. */
  function Ties(s: SortBy, k: Product, xs: seq<Product>): seq<Product> {
    if xs == [] then []
    else (if SameKey(s, xs[0], k) then [xs[0]] else []) + Ties(s, k, xs[1..])
  }

  /** Puts `x` in front of the first element it may stand before, that is,
      after everything that strictly precedes it. */
  function Insert(s: SortBy, x: Product, xs: seq<Product>): seq<Product> {
    if xs == [] then [x]
    else if Leq(s, x, xs[0]) then [x] + xs
    else [xs[0]] + Insert(s, x, xs[1..])
  }

  /** Sorts `xs` by the comparator of `s`; ties keep their input order. */
  function Sort(s: SortBy, xs: seq<Product>): seq<Product> {
    if xs == [] then [] else Insert(s, xs[0], Sort(s, xs[1..]))
  }

  lemma {:induction false} InsertPermutes(s: SortBy, x: Product, xs: seq<Product>)
    ensures multiset(Insert(s, x, xs)) == multiset(xs) + multiset{x}
  {
    if xs != [] && !Leq(s, x, xs[0]) {
      InsertPermutes(s, x, xs[1..]);
      assert xs == [xs[0]] + xs[1..];
    }
  }

  lemma {:induction false} InsertSorted(s: SortBy, x: Product, xs: seq<Product>)
    requires Sorted(s, xs)
    ensures Sorted(s, Insert(s, x, xs))
  {
    if xs == [] {
    } else if Leq(s, x, xs[0]) {
      var r := [x] + xs;
      forall i, j | 0 <= i < j < |r| ensures Leq(s, r[i], r[j]) {
        if i == 0 && j > 1 {
          LeqTotalPreorder(s, x, xs[0], xs[j - 1]);
        }
      }
    } else {
      InsertSorted(s, x, xs[1..]);
      var tail := Insert(s, x, xs[1..]);
      InsertPermutes(s, x, xs[1..]);
      var r := [xs[0]] + tail;
      forall j | 0 < j < |r| ensures Leq(s, xs[0], r[j]) {
        assert r[j] in multiset(tail);
        if r[j] == x {
          LeqTotalPreorder(s, x, xs[0], x);
        } else {
          assert r[j] in multiset(xs[1..]);
          var k :| 0 <= k < |xs[1..]| && xs[1..][k] == r[j];
          assert xs[k + 1] == r[j];
        }
      }
    }
  }

  lemma {:induction false} InsertTies(s: SortBy, k: Product, x: Product, xs: seq<Product>)
    ensures Ties(s, k, Insert(s, x, xs)) == (if SameKey(s, x, k) then [x] else []) + Ties(s, k, xs)
  {
    if xs != [] && !Leq(s, x, xs[0]) {
      InsertTies(s, k, x, xs[1..]);
      if SameKey(s, x, k) && SameKey(s, xs[0], k) {
        LeqTotalPreorder(s, x, k, xs[0]);
        LeqTotalPreorder(s, k, xs[0], k);
        LeqTotalPreorder(s, xs[0], k, x);
      }
    }
  }

  /** The sort result is ordered, is a permutation of its input, and is
      stable: the products that tie with any given `k` appear in the same
      relative order as in the input. */
  lemma {:induction false} SortCorrect(s: SortBy, xs: seq<Product>)
    ensures Sorted(s, Sort(s, xs))
    ensures multiset(Sort(s, xs)) == multiset(xs)
    ensures forall k :: Ties(s, k, Sort(s, xs)) == Ties(s, k, xs)
  {
    if xs != [] {
      SortCorrect(s, xs[1..]);
      InsertSorted(s, xs[0], Sort(s, xs[1..]));
      InsertPermutes(s, xs[0], Sort(s, xs[1..]));
      assert xs == [xs[0]] + xs[1..];
      forall k ensures Ties(s, k, Sort(s, xs)) == Ties(s, k, xs) {
        InsertTies(s, k, xs[0], Sort(s, xs[1..]));
      }
    }
  }

  /** A list that is already in order is left as it is. */
  lemma {:induction false} SortOfSorted(s: SortBy, xs: seq<Product>)
    requires Sorted(s, xs)
    ensures Sort(s, xs) == xs
  {
    if xs != [] {
      SortOfSorted(s, xs[1..]);
      assert Sort(s, xs[1..]) == xs[1..];
      if |xs| > 1 {
        assert Leq(s, xs[0], xs[1]);
      }
      assert xs == [xs[0]] + xs[1..];
    }
  }
}
