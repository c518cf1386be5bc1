// List operations the source writes with `Array.prototype.filter`, `map`
// and `slice`, with what they keep and what they drop.

module Seqs {
  import opened Wrappers

  /** `xs.filter(p)`: the elements satisfying `p`, in their original order. */
  function Filter<T(==)>(xs: seq<T>, p: T -> bool): (r: seq<T>)
    ensures |r| <= |xs|
    ensures forall i :: 0 <= i < |r| ==> p(r[i])
    ensures multiset(r) <= multiset(xs)
    ensures forall i :: 0 <= i < |r| ==> r[i] in xs
    ensures forall i :: 0 <= i < |xs| && p(xs[i]) ==> xs[i] in r
  {
    if xs == [] then []
    else
      var rest := Filter(xs[1..], p);
      FilterStep(xs, p, rest);
      if p(xs[0]) then [xs[0]] + rest else rest
  }

  /** What `Filter` promises, carried from the tail's result to the whole. */
  lemma FilterStep<T>(xs: seq<T>, p: T -> bool, rest: seq<T>)
    requires xs != []
    requires |rest| <= |xs| - 1
    requires forall i :: 0 <= i < |rest| ==> p(rest[i])
    requires multiset(rest) <= multiset(xs[1..])
    requires forall i :: 0 <= i < |rest| ==> rest[i] in xs[1..]
    requires forall i :: 1 <= i < |xs| && p(xs[i]) ==> xs[i] in rest
    ensures var r := if p(xs[0]) then [xs[0]] + rest else rest;
      && |r| <= |xs|
      && (forall i :: 0 <= i < |r| ==> p(r[i]))
      && multiset(r) <= multiset(xs)
      && (forall i :: 0 <= i < |r| ==> r[i] in xs)
      && (forall i :: 0 <= i < |xs| && p(xs[i]) ==> xs[i] in r)
  {
    assert xs == [xs[0]] + xs[1..];
    var r := if p(xs[0]) then [xs[0]] + rest else rest;
    forall i | 0 <= i < |r| ensures p(r[i]) && r[i] in xs {
      if p(xs[0]) && i > 0 {
        assert r[i] == rest[i - 1];
      }
    }
    forall i | 0 <= i < |xs| && p(xs[i]) ensures xs[i] in r {
      if i > 0 {
        assert xs[i] == xs[1..][i - 1];
      }
    }
  }

  lemma {:induction false} FilterAll<T>(xs: seq<T>, p: T -> bool)
    requires forall i :: 0 <= i < |xs| ==> p(xs[i])
    ensures Filter(xs, p) == xs
  {
    if xs != [] {
      FilterAll(xs[1..], p);
      assert [xs[0]] + xs[1..] == xs;
    }
  }

  lemma {:induction false} FilterNone<T>(xs: seq<T>, p: T -> bool)
    requires forall i :: 0 <= i < |xs| ==> !p(xs[i])
    ensures Filter(xs, p) == []
  {
    if xs != [] {
      FilterNone(xs[1..], p);
    }
  }

  /** Filtering by `p` and then by `q` is filtering once by any `pq` that
      holds exactly where both do. */
  lemma {:induction false} FilterFilter<T>(xs: seq<T>, p: T -> bool, q: T -> bool, pq: T -> bool)
    requires forall i :: 0 <= i < |xs| ==> pq(xs[i]) == (p(xs[i]) && q(xs[i]))
    ensures Filter(Filter(xs, p), q) == Filter(xs, pq)
  {
    if xs != [] {
      FilterFilter(xs[1..], p, q, pq);
      var rest := Filter(xs[1..], p);
      if p(xs[0]) {
        assert ([xs[0]] + rest)[1..] == rest;
      }
    }
  }

  /** Filtering a list extended at the end extends the filtered list. */
  lemma {:induction false} FilterSnoc<T>(xs: seq<T>, x: T, p: T -> bool)
    ensures Filter(xs + [x], p) == Filter(xs, p) + (if p(x) then [x] else [])
  {
    if xs != [] {
      assert (xs + [x])[1..] == xs[1..] + [x];
      FilterSnoc(xs[1..], x, p);
    } else {
      assert ([] + [x])[1..] == [];
    }
  }

  /** Filtering depends only on the predicate's verdicts on the elements. */
  lemma {:induction false} FilterCongruent<T>(xs: seq<T>, p: T -> bool, q: T -> bool)
    requires forall i :: 0 <= i < |xs| ==> p(xs[i]) == q(xs[i])
    ensures Filter(xs, p) == Filter(xs, q)
  {
    if xs != [] {
      FilterCongruent(xs[1..], p, q);
    }
  }

  /** `xs.map(f)`. */
  function Map<T, U>(xs: seq<T>, f: T -> U): (r: seq<U>)
    ensures |r| == |xs|
    ensures forall i :: 0 <= i < |xs| ==> r[i] == f(xs[i])
  {
    seq(|xs|, i requires 0 <= i < |xs| => f(xs[i]))
  }

  /** `xs.slice(0, n)`. */
  function Take<T>(xs: seq<T>, n: nat): (r: seq<T>)
    ensures |r| == if n < |xs| then n else |xs|
    ensures r <= xs
  {
    if n < |xs| then xs[..n] else xs
  }

  /** Newest first: the reverse of creation order. */
  function Reverse<T>(xs: seq<T>): (r: seq<T>)
    ensures |r| == |xs|
    ensures forall i :: 0 <= i < |xs| ==> r[i] == xs[|xs| - 1 - i]
  {
    seq(|xs|, i requires 0 <= i < |xs| => xs[|xs| - 1 - i])
  }

  lemma ReversePermutes<T>(xs: seq<T>)
    ensures multiset(Reverse(xs)) == multiset(xs)
  {
    if xs != [] {
      var r := Reverse(xs);
      ReversePermutes(xs[1..]);
      assert Reverse(xs[1..]) + [xs[0]] == r;
      assert xs == [xs[0]] + xs[1..];
    }
  }

  /** Reversing keeps exactly the same elements. */
  lemma ReverseSameElements<T>(xs: seq<T>)
    ensures forall x :: x in Reverse(xs) <==> x in xs
  {
    ReversePermutes(xs);
    forall x ensures x in Reverse(xs) <==> x in xs {
      assert x in multiset(Reverse(xs)) <==> x in multiset(xs);
    }
  }

  /** No two elements share a key. */
  ghost predicate DistinctBy<T, K>(xs: seq<T>, key: T -> K)
  {
    forall i, j :: 0 <= i < j < |xs| ==> key(xs[i]) != key(xs[j])
  }

  lemma DistinctTail<T, K>(xs: seq<T>, key: T -> K)
    requires DistinctBy(xs, key) && xs != []
    ensures DistinctBy(xs[1..], key)
    ensures forall y :: y in xs[1..] ==> key(y) != key(xs[0])
  {
    forall i, j | 0 <= i < j < |xs| - 1 ensures key(xs[1..][i]) != key(xs[1..][j]) {
      assert xs[1..][i] == xs[i + 1] && xs[1..][j] == xs[j + 1];
    }
    forall y | y in xs[1..] ensures key(y) != key(xs[0]) {
      var k :| 0 <= k < |xs| - 1 && xs[1..][k] == y;
      assert xs[k + 1] == y;
    }
  }

  lemma ConsDistinct<T, K>(x: T, rest: seq<T>, key: T -> K)
    requires DistinctBy(rest, key)
    requires forall y :: y in rest ==> key(y) != key(x)
    ensures DistinctBy([x] + rest, key)
  {
    var r := [x] + rest;
    forall i, j | 0 <= i < j < |r| ensures key(r[i]) != key(r[j]) {
      assert r[j] == rest[j - 1];
      if i > 0 {
        assert r[i] == rest[i - 1];
      }
    }
  }

  lemma {:induction false} FilterKeepsDistinct<T, K>(xs: seq<T>, p: T -> bool, key: T -> K)
    requires DistinctBy(xs, key)
    ensures DistinctBy(Filter(xs, p), key)
  {
    if xs != [] {
      DistinctTail(xs, key);
      FilterKeepsDistinct(xs[1..], p, key);
      if p(xs[0]) {
        ConsDistinct(xs[0], Filter(xs[1..], p), key);
      }
    }
  }

  /** Replacing one element by another with the same key keeps keys distinct. */
  lemma ReplaceKeepsDistinct<T, K>(xs: seq<T>, i: nat, y: T, key: T -> K)
    requires i < |xs| && DistinctBy(xs, key) && key(y) == key(xs[i])
    ensures DistinctBy(xs[i := y], key)
  {
    var r := xs[i := y];
    forall a, b | 0 <= a < b < |r| ensures key(r[a]) != key(r[b]) {
      assert key(r[a]) == key(xs[a]) && key(r[b]) == key(xs[b]);
    }
  }

  /** Appending an element whose key is new keeps keys distinct. */
  lemma AppendKeepsDistinct<T, K>(xs: seq<T>, y: T, key: T -> K)
    requires DistinctBy(xs, key)
    requires forall i :: 0 <= i < |xs| ==> key(xs[i]) != key(y)
    ensures DistinctBy(xs + [y], key)
  {
  }

  /** `xs.findIndex(p)`, with None for -1. */
  function FirstIndex<T>(xs: seq<T>, p: T -> bool): (r: Option<nat>)
    ensures r.Some? ==> r.value < |xs| && p(xs[r.value])
    ensures r.Some? ==> forall j :: 0 <= j < r.value ==> !p(xs[j])
    ensures r.None? ==> forall j :: 0 <= j < |xs| ==> !p(xs[j])
  {
    if xs == [] then None
    else if p(xs[0]) then Some(0)
    else
      var rest := FirstIndex(xs[1..], p);
      if rest.Some? then Some(rest.value + 1) else None
  }

  /** With distinct keys, the first element carrying a key is the only one. */
  lemma FirstIndexUnique<T, K>(xs: seq<T>, key: T -> K, k: K, i: nat)
    requires DistinctBy(xs, key)
    requires i < |xs| && key(xs[i]) == k
    ensures FirstIndex(xs, x => key(x) == k) == Some(i)
  {
    var r := FirstIndex(xs, x => key(x) == k);
    assert r.Some?;
  }
}
