/** `Array.prototype.filter`, with the facts the pages rely on: it keeps
    exactly the matching elements, every copy of each, in their original
    order. */
module Sequences {

  /** `r` can be obtained from `xs` by deleting elements (order kept). */
  predicate IsSubsequence<T(==)>(r: seq<T>, xs: seq<T>)
    decreases |xs|
  {
    if r == [] then true
    else if xs == [] then false
    else if r[0] == xs[0] then IsSubsequence(r[1..], xs[1..])
    else IsSubsequence(r, xs[1..])
  }

  /** `xs.filter(keep)`. */
  function Filter<T(==,!new)>(xs: seq<T>, keep: T -> bool): (r: seq<T>)
    ensures |r| <= |xs|
    ensures forall i :: 0 <= i < |r| ==> r[i] in xs && keep(r[i])
    ensures forall i :: 0 <= i < |xs| && keep(xs[i]) ==> xs[i] in r
    ensures IsSubsequence(r, xs)
    ensures forall x :: keep(x) ==> multiset(r)[x] == multiset(xs)[x]
  {
    if xs == [] then []
    else
      var rest := Filter(xs[1..], keep);
      var r := if keep(xs[0]) then [xs[0]] + rest else rest;
      FilterStep(xs, keep, rest, r);
      FilterStepCount(xs, keep, rest, r);
      r
  }

  /** One step of `Filter`: which elements the result holds, and in what
      order, follows from what the filtered tail holds. */
  lemma FilterStep<T>(xs: seq<T>, keep: T -> bool, rest: seq<T>, r: seq<T>)
    requires xs != []
    requires forall i :: 0 <= i < |rest| ==> rest[i] in xs[1..] && keep(rest[i])
    requires forall i :: 0 <= i < |xs[1..]| && keep(xs[1..][i]) ==> xs[1..][i] in rest
    requires IsSubsequence(rest, xs[1..])
    requires r == if keep(xs[0]) then [xs[0]] + rest else rest
    ensures forall i :: 0 <= i < |r| ==> r[i] in xs && keep(r[i])
    ensures forall i :: 0 <= i < |xs| && keep(xs[i]) ==> xs[i] in r
    ensures IsSubsequence(r, xs)
  {
    if keep(xs[0]) {
      assert r[1..] == rest;
    } else {
      assert forall i :: 0 <= i < |rest| ==> rest[i] in xs;
      assert forall i :: 1 <= i < |xs| ==> xs[i] == xs[1..][i - 1];
    }
  }

  /** One step of `Filter`: how many copies of each kept element the
      result holds follows from the filtered tail. */
  lemma FilterStepCount<T(!new)>(xs: seq<T>, keep: T -> bool, rest: seq<T>, r: seq<T>)
    requires xs != []
    requires forall x :: keep(x) ==> multiset(rest)[x] == multiset(xs[1..])[x]
    requires r == if keep(xs[0]) then [xs[0]] + rest else rest
    ensures forall x :: keep(x) ==> multiset(r)[x] == multiset(xs)[x]
  {
    assert xs == [xs[0]] + xs[1..];
  }

  /** Every sequence is a subsequence of itself. */
  lemma {:induction false} IsSubsequenceRefl<T>(xs: seq<T>)
    ensures IsSubsequence(xs, xs)
  {
    if xs != [] {
      IsSubsequenceRefl(xs[1..]);
    }
  }

  /** Filtering with a test every element passes changes nothing. */
  lemma {:induction false} FilterAllKept<T(!new)>(xs: seq<T>, keep: T -> bool)
    requires forall i :: 0 <= i < |xs| ==> keep(xs[i])
    ensures Filter(xs, keep) == xs
  {
    if xs != [] {
      FilterAllKept(xs[1..], keep);
    }
  }

  /** Filtering twice with the same test is filtering once. */
  lemma {:induction false} FilterIdempotent<T(!new)>(xs: seq<T>, keep: T -> bool)
    ensures Filter(Filter(xs, keep), keep) == Filter(xs, keep)
  {
    var r := Filter(xs, keep);
    FilterAllKept(r, keep);
  }
}
