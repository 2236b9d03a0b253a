/**
 * Sequence operations shared by the client and the server code:
 * `Array.prototype.filter`, `[...new Set(xs)]`, `flatMap` and
 * `Array.prototype.splice(i, 1)`, each with the property the callers rely on.
 */
module Seqs {
  import opened Wrappers

  /**
   * `xs.findIndex(p)`, and equally a store's `findOne` in natural order:
   * the position of the first element satisfying `p`, if any.
   */
  function FindFirst<T>(xs: seq<T>, p: T -> bool): (r: Option<nat>)
    ensures r.Some? ==> r.value < |xs| && p(xs[r.value])
    ensures r.Some? ==> forall j :: 0 <= j < r.value ==> !p(xs[j])
    ensures r.None? <==> forall j :: 0 <= j < |xs| ==> !p(xs[j])
  {
    if |xs| == 0 then None
    else if p(xs[0]) then Some(0)
    else
      match FindFirst(xs[1..], p)
      case None => None
      case Some(k) => Some(k + 1)
  }

  /** `a` can be obtained from `b` by deleting elements (order kept). */
  ghost predicate IsSubseq<T>(a: seq<T>, b: seq<T>)
    decreases |b|
  {
    |a| == 0 || (|b| > 0 && (if a[0] == b[0] then IsSubseq(a[1..], b[1..]) else IsSubseq(a, b[1..])))
  }

  /** No element occurs twice. */
  predicate NoDuplicates<T(==)>(xs: seq<T>) {
    forall i, j :: 0 <= i < j < |xs| ==> xs[i] != xs[j]
  }

  /** `xs.filter(keep)`: the elements that pass, in their original order. */
  function Filter<T(==,!new)>(xs: seq<T>, keep: T -> bool): (r: seq<T>)
    ensures |r| <= |xs|
    ensures forall x :: x in r <==> x in xs && keep(x)
    ensures IsSubseq(r, xs)
  {
    if |xs| == 0 then []
    else
      var rest := Filter(xs[1..], keep);
      if keep(xs[0]) then [xs[0]] + rest else rest
  }

  /** Filtering keeps every passing element as often as it occurs, repeats included, and drops the rest. */
  lemma {:induction false} FilterMultiplicity<T(!new)>(xs: seq<T>, keep: T -> bool)
    ensures forall x :: multiset(Filter(xs, keep))[x] == if keep(x) then multiset(xs)[x] else 0
  {
    if |xs| > 0 {
      assert xs == [xs[0]] + xs[1..];
      FilterMultiplicity(xs[1..], keep);
    }
  }

  /** Filtering keeps a sequence whose every element passes unchanged. */
  lemma {:induction false} FilterAllPass<T(!new)>(xs: seq<T>, keep: T -> bool)
    requires forall x :: x in xs ==> keep(x)
    ensures Filter(xs, keep) == xs
  {
    if |xs| > 0 {
      assert xs[0] in xs;
      assert forall x :: x in xs[1..] ==> x in xs;
      FilterAllPass(xs[1..], keep);
    }
  }

  /** Filtering distributes over concatenation. */
  lemma {:induction false} FilterConcat<T(!new)>(xs: seq<T>, ys: seq<T>, keep: T -> bool)
    ensures Filter(xs + ys, keep) == Filter(xs, keep) + Filter(ys, keep)
  {
    if |xs| == 0 {
      assert xs + ys == ys;
    } else {
      assert (xs + ys)[1..] == xs[1..] + ys;
      FilterConcat(xs[1..], ys, keep);
    }
  }

  /** Filtering never creates duplicates. */
  lemma {:induction false} FilterNoDuplicates<T(!new)>(xs: seq<T>, keep: T -> bool)
    requires NoDuplicates(xs)
    ensures NoDuplicates(Filter(xs, keep))
  {
    if |xs| > 0 {
      assert NoDuplicates(xs[1..]) by {
        forall i, j | 0 <= i < j < |xs[1..]| ensures xs[1..][i] != xs[1..][j] {
          assert xs[1..][i] == xs[i + 1] && xs[1..][j] == xs[j + 1];
        }
      }
      FilterNoDuplicates(xs[1..], keep);
      assert xs[0] !in xs[1..] by {
        forall k | 0 <= k < |xs[1..]| ensures xs[1..][k] != xs[0] {
          assert xs[1..][k] == xs[k + 1];
        }
      }
    }
  }

  /** Position of the first occurrence of `x`. */
  function IndexOf<T(==)>(xs: seq<T>, x: T): (k: nat)
    requires x in xs
    ensures k < |xs| && xs[k] == x
    ensures forall i :: 0 <= i < k ==> xs[i] != x
  {
    if xs[0] == x then 0 else 1 + IndexOf(xs[1..], x)
  }

  /** Two filters whose predicates agree everywhere keep the same elements. */
  lemma {:induction false} FilterSamePredicate<T(!new)>(xs: seq<T>, f: T -> bool, g: T -> bool)
    requires forall x :: f(x) == g(x)
    ensures Filter(xs, f) == Filter(xs, g)
  {
    if xs != [] {
      FilterSamePredicate(xs[1..], f, g);
    }
  }

  /** The first occurrence of an element of a prefix lies in that prefix. */
  lemma IndexOfPrefix<T>(xs: seq<T>, y: T, x: T)
    requires x in xs
    ensures IndexOf(xs + [y], x) == IndexOf(xs, x)
  {
    var k := IndexOf(xs, x);
    var k' := IndexOf(xs + [y], x);
    assert (xs + [y])[k] == x;
    assert k' <= k;
  }

  /** `[...new Set(xs)]`: each distinct element once, in first-occurrence order. */
  function Distinct<T(==,!new)>(xs: seq<T>): (r: seq<T>)
    ensures NoDuplicates(r)
    ensures forall x :: x in r <==> x in xs
    ensures forall i, j :: 0 <= i < j < |r| ==> IndexOf(xs, r[i]) < IndexOf(xs, r[j])
  {
    if |xs| == 0 then []
    else
      var init := xs[..|xs| - 1];
      var last := xs[|xs| - 1];
      assert xs == init + [last];
      var d := Distinct(init);
      if last in d then d
      else
        var r := d + [last];
        assert forall i :: 0 <= i < |d| ==> IndexOf(xs, d[i]) == IndexOf(init, d[i]) by {
          forall i | 0 <= i < |d| ensures IndexOf(xs, d[i]) == IndexOf(init, d[i]) {
            IndexOfPrefix(init, last, d[i]);
          }
        }
        assert IndexOf(xs, last) == |xs| - 1;
        r
  }

  /** `[...new Set(xs)]` keeps a sequence that is already duplicate-free. */
  lemma {:induction false} DistinctOfDistinct<T(!new)>(xs: seq<T>)
    requires NoDuplicates(xs)
    ensures Distinct(xs) == xs
  {
    if |xs| > 0 {
      var init := xs[..|xs| - 1];
      assert NoDuplicates(init);
      DistinctOfDistinct(init);
      assert xs[|xs| - 1] !in init;
      assert init + [xs[|xs| - 1]] == xs;
    }
  }

  /** `xs.flatMap(f)`: the concatenation of `f` over the elements. */
  function FlatMap<T(==,!new), U(==,!new)>(xs: seq<T>, f: T -> seq<U>): (r: seq<U>)
    ensures forall u :: u in r <==> exists x :: x in xs && u in f(x)
  {
    if |xs| == 0 then []
    else
      var rest := FlatMap(xs[1..], f);
      assert forall x :: x in xs <==> x == xs[0] || x in xs[1..];
      f(xs[0]) + rest
  }

  /**
   * `xs.splice(i, 1)` on a copy: a negative index counts from the end
   * (clamped at 0) and an index past the end removes nothing.
   */
  function Splice1<T>(xs: seq<T>, i: int): (r: seq<T>)
    ensures 0 <= i < |xs| ==> |r| == |xs| - 1 && r == xs[..i] + xs[i + 1..]
    ensures i >= |xs| ==> r == xs
    ensures -|xs| <= i < 0 ==> r == xs[..|xs| + i] + xs[|xs| + i + 1..]
  {
    var start := if i < 0 then (if |xs| + i < 0 then 0 else |xs| + i) else i;
    if start >= |xs| then xs else xs[..start] + xs[start + 1..]
  }
}
