/** The SQL aggregates the availability queries use, over in-memory sequences. */
module Aggregates {

  /** Python's `max(x, 0)`. */
  function Max0(x: int): int
  {
    if x > 0 then x else 0
  }

  /** `COALESCE(SUM(x), 0)`: the sum of the values, 0 for no values. */
  function Sum(xs: seq<int>): int
  {
    if xs == [] then 0 else Sum(xs[..|xs| - 1]) + xs[|xs| - 1]
  }

  lemma {:induction false} SumNonNegative(xs: seq<int>)
    requires forall i :: 0 <= i < |xs| ==> xs[i] >= 0
    ensures Sum(xs) >= 0
  {
    if xs != [] {
      SumNonNegative(xs[..|xs| - 1]);
    }
  }

  predicate NoDuplicates(xs: seq<int>)
  {
    forall i, j :: 0 <= i < j < |xs| ==> xs[i] != xs[j]
  }

  /** The distinct values of `xs`, each once, in order of first appearance. */
  function Distinct(xs: seq<int>): (d: seq<int>)
    ensures forall x :: x in d <==> x in xs
    ensures NoDuplicates(d)
    ensures |d| <= |xs|
  {
    if xs == [] then []
    else
      var seen := Distinct(xs[..|xs| - 1]);
      var x := xs[|xs| - 1];
      assert forall y :: y in xs <==> y in xs[..|xs| - 1] || y == x;
      if x in seen then seen else seen + [x]
  }

  /** `COALESCE(SUM(DISTINCT x), 0)`: every distinct VALUE is added once, so two rows
      that carry the same value contribute it a single time. */
  function SumDistinct(xs: seq<int>): int
  {
    Sum(Distinct(xs))
  }

  /** When no value repeats, SUM(DISTINCT x) is the plain sum. */
  lemma {:induction false} SumDistinctOfDistinctValues(xs: seq<int>)
    requires NoDuplicates(xs)
    ensures SumDistinct(xs) == Sum(xs)
  {
    DistinctOfDistinctValues(xs);
  }

  lemma {:induction false} DistinctOfDistinctValues(xs: seq<int>)
    requires NoDuplicates(xs)
    ensures Distinct(xs) == xs
  {
    if xs != [] {
      var p := xs[..|xs| - 1];
      assert NoDuplicates(p);
      DistinctOfDistinctValues(p);
      assert xs[|xs| - 1] !in p;
      assert p + [xs[|xs| - 1]] == xs;
    }
  }

  /** Over non-negative values, SUM(DISTINCT x) never exceeds the plain sum. */
  lemma {:induction false} SumDistinctAtMostSum(xs: seq<int>)
    requires forall i :: 0 <= i < |xs| ==> xs[i] >= 0
    ensures 0 <= SumDistinct(xs) <= Sum(xs)
  {
    var d := Distinct(xs);
    forall i | 0 <= i < |d| ensures d[i] >= 0 {
      assert d[i] in xs;
    }
    SumNonNegative(d);
    if xs != [] {
      var p := xs[..|xs| - 1];
      SumDistinctAtMostSum(p);
      var x := xs[|xs| - 1];
      if x !in Distinct(p) {
        assert (Distinct(p) + [x])[..|Distinct(p)|] == Distinct(p);
      }
    }
  }
}
