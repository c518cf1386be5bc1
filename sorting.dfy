// The two sorts the storefront pages use: `Array.prototype.sort` with a
// numeric comparator (a stable sort by a key), and the facet lists built as
// `[...new Set(xs)].sort()` (duplicate-free and ascending).

module Sorting {

  ghost predicate SortedBy<T>(xs: seq<T>, key: T -> real)
  {
    forall i, j :: 0 <= i < j < |xs| ==> key(xs[i]) <= key(xs[j])
  }

  /** The elements of `xs` whose key is `k`, in their order in `xs`. */
  function WithKey<T>(xs: seq<T>, key: T -> real, k: real): seq<T>
  {
    if xs == [] then [] else (if key(xs[0]) == k then [xs[0]] else []) + WithKey(xs[1..], key, k)
  }

  /** Stability: elements with equal keys come in the same order in `r` as
      in `xs`. */
  ghost predicate TiesInOrder<T>(r: seq<T>, xs: seq<T>, key: T -> real)
  {
    forall k :: WithKey(r, key, k) == WithKey(xs, key, k)
  }

  /** Inserts `x` before the first element whose key is not smaller, so that
      among equal keys `x` comes first. */
  function InsertBy<T>(x: T, xs: seq<T>, key: T -> real): (r: seq<T>)
    requires SortedBy(xs, key)
    ensures SortedBy(r, key)
    ensures multiset(r) == multiset(xs) + multiset{x}
    ensures |r| == |xs| + 1
    ensures r[0] == x || (xs != [] && r[0] == xs[0])
  {
    if xs == [] || key(x) <= key(xs[0]) then [x] + xs
    else
      var rest := InsertBy(x, xs[1..], key);
      assert xs == [xs[0]] + xs[1..];
      [xs[0]] + rest
  }

  /** Among the elements of key `k`, the inserted `x` comes first: it is
      placed before every element whose key is not smaller than its own. */
  lemma {:induction false} InsertByTies<T>(x: T, xs: seq<T>, key: T -> real, k: real)
    requires SortedBy(xs, key)
    ensures WithKey(InsertBy(x, xs, key), key, k) == (if key(x) == k then [x] else []) + WithKey(xs, key, k)
  {
    var r := InsertBy(x, xs, key);
    if xs == [] || key(x) <= key(xs[0]) {
      assert r == [x] + xs;
      assert r[1..] == xs;
    } else {
      var rest := InsertBy(x, xs[1..], key);
      assert r == [xs[0]] + rest;
      assert r[0] == xs[0] && r[1..] == rest;
      var head := if key(xs[0]) == k then [xs[0]] else [];
      assert WithKey(r, key, k) == head + WithKey(rest, key, k);
      InsertByTies(x, xs[1..], key, k);
      assert WithKey(xs, key, k) == head + WithKey(xs[1..], key, k);
      if key(x) == k {
        assert key(xs[0]) < key(x) && head == [];
      }
    }
  }

  /** Two elements given in descending key order come out swapped. */
  lemma SortTwo<T>(a: T, b: T, key: T -> real)
    requires key(b) < key(a)
    ensures SortBy([a, b], key) == [b, a]
  {
    assert [a, b][1..] == [b];
    assert SortBy([b], key) == [b] by {
      assert [b][1..] == [];
    }
    assert InsertBy(a, [], key) == [a];
  }

  /** A stable sort ascending by `key` (insertion sort, as an ES2019
      `Array.prototype.sort` must behave for a consistent comparator): sorted,
      a permutation, and elements with equal keys keep their input order. */
  function SortBy<T>(xs: seq<T>, key: T -> real): (r: seq<T>)
    ensures SortedBy(r, key)
    ensures multiset(r) == multiset(xs)
    ensures TiesInOrder(r, xs, key)
  {
    if xs == [] then []
    else
      assert xs == [xs[0]] + xs[1..];
      var sorted := SortBy(xs[1..], key);
      assert forall k {:trigger WithKey(xs, key, k)} ::
        WithKey(InsertBy(xs[0], sorted, key), key, k) == WithKey(xs, key, k) by {
        forall k ensures WithKey(InsertBy(xs[0], sorted, key), key, k) == WithKey(xs, key, k) {
          InsertByTies(xs[0], sorted, key, k);
        }
      }
      InsertBy(xs[0], sorted, key)
  }

  ghost predicate StrictTotalOrder<T(!new)>(lt: (T, T) -> bool)
  {
    && (forall a :: !lt(a, a))
    && (forall a, b, c :: lt(a, b) && lt(b, c) ==> lt(a, c))
    && (forall a, b :: a != b ==> lt(a, b) || lt(b, a))
  }

  ghost predicate StrictlySorted<T>(xs: seq<T>, lt: (T, T) -> bool)
  {
    forall i, j :: 0 <= i < j < |xs| ==> lt(xs[i], xs[j])
  }

  /** Adds `x` to a strictly ascending list unless it is already there. */
  function InsertUnique<T(!new,==)>(x: T, xs: seq<T>, lt: (T, T) -> bool): (r: seq<T>)
    requires StrictTotalOrder(lt)
    requires StrictlySorted(xs, lt)
    ensures StrictlySorted(r, lt)
    ensures x in r
    ensures forall i :: 0 <= i < |xs| ==> xs[i] in r
    ensures forall i :: 0 <= i < |r| ==> r[i] == x || r[i] in xs
    ensures r != [] && (r[0] == x || r[0] == xs[0])
  {
    if xs == [] then [x]
    else if x == xs[0] then xs
    else if lt(x, xs[0]) then [x] + xs
    else
      var rest := InsertUnique(x, xs[1..], lt);
      assert xs == [xs[0]] + xs[1..];
      assert lt(xs[0], x);
      [xs[0]] + rest
  }

  /** `[...new Set(xs)].sort()`: the distinct elements of `xs`, ascending. */
  function SortedSet<T(!new,==)>(xs: seq<T>, lt: (T, T) -> bool): (r: seq<T>)
    requires StrictTotalOrder(lt)
    ensures StrictlySorted(r, lt)
    ensures forall i :: 0 <= i < |xs| ==> xs[i] in r
    ensures forall i :: 0 <= i < |r| ==> r[i] in xs
  {
    if xs == [] then []
    else
      assert xs == [xs[0]] + xs[1..];
      InsertUnique(xs[0], SortedSet(xs[1..], lt), lt)
  }

  /** The set list holds exactly the values of `xs`. */
  lemma SortedSetMembers<T(!new)>(xs: seq<T>, lt: (T, T) -> bool)
    requires StrictTotalOrder(lt)
    ensures forall x :: x in SortedSet(xs, lt) <==> x in xs
  {
    var r := SortedSet(xs, lt);
    forall x ensures x in r <==> x in xs {
      if x in r {
        var i :| 0 <= i < |r| && r[i] == x;
      }
      if x in xs {
        var i :| 0 <= i < |xs| && xs[i] == x;
      }
    }
  }

  /** A strictly sorted list has no duplicates. */
  lemma StrictlySortedDistinct<T(!new)>(xs: seq<T>, lt: (T, T) -> bool)
    requires StrictTotalOrder(lt)
    requires StrictlySorted(xs, lt)
    ensures forall i, j :: 0 <= i < j < |xs| ==> xs[i] != xs[j]
  {
  }

  /** JavaScript's default string comparison: code unit by code unit, a
      proper prefix first. */
  predicate StrLess(a: string, b: string)
  {
    if a == [] then b != []
    else if b == [] then false
    else if a[0] != b[0] then a[0] < b[0]
    else StrLess(a[1..], b[1..])
  }

  lemma {:induction false} StrLessIrreflexive(a: string)
    ensures !StrLess(a, a)
  {
    if a != [] {
      StrLessIrreflexive(a[1..]);
    }
  }

  lemma {:induction false} StrLessTransitive(a: string, b: string, c: string)
    requires StrLess(a, b) && StrLess(b, c)
    ensures StrLess(a, c)
  {
    if a != [] && b != [] && c != [] && a[0] == b[0] && b[0] == c[0] {
      StrLessTransitive(a[1..], b[1..], c[1..]);
    }
  }

  lemma {:induction false} StrLessTotal(a: string, b: string)
    requires a != b
    ensures StrLess(a, b) || StrLess(b, a)
  {
    if a != [] && b != [] && a[0] == b[0] {
      assert a == [a[0]] + a[1..] && b == [b[0]] + b[1..];
      StrLessTotal(a[1..], b[1..]);
    }
  }

  lemma StrLessOrder()
    ensures StrictTotalOrder(StrLess)
  {
    forall a ensures !StrLess(a, a) { StrLessIrreflexive(a); }
    forall a, b, c | StrLess(a, b) && StrLess(b, c) ensures StrLess(a, c) {
      StrLessTransitive(a, b, c);
    }
    forall a, b | a != b ensures StrLess(a, b) || StrLess(b, a) { StrLessTotal(a, b); }
  }

  predicate RealLess(a: real, b: real) { a < b }

  lemma RealLessOrder()
    ensures StrictTotalOrder(RealLess)
  {
  }
}
