/**
  Descriptive statistics over an array of n doubles (src/statistics/statistics.c).

  The array is read, never written, so it is a `seq<real>` of length n. mean and median
  are single expressions and are functions; sum, min, max, range and the standard
  deviation are accumulator loops and are methods proved against the recursive
  definitions below.
 */
module Statistics {
  import opened Numerics

  /** a[0] + a[1] + ... + a[|a|-1], accumulated left to right */
  function Sum(a: seq<real>): real {
    if |a| == 0 then 0.0 else Sum(a[..|a| - 1]) + a[|a| - 1]
  }

  /** The smallest element, found scanning left to right and replacing only on a strictly smaller one */
  function Minimum(a: seq<real>): (m: real)
    requires |a| >= 1
    ensures m in a
    ensures forall i :: 0 <= i < |a| ==> m <= a[i]
  {
    if |a| == 1 then a[0]
    else
      var rest := Minimum(a[..|a| - 1]);
      assert forall i :: 0 <= i < |a| - 1 ==> a[..|a| - 1][i] == a[i];
      if a[|a| - 1] < rest then a[|a| - 1] else rest
  }

  /** The largest element, found scanning left to right and replacing only on a strictly larger one */
  function Maximum(a: seq<real>): (m: real)
    requires |a| >= 1
    ensures m in a
    ensures forall i :: 0 <= i < |a| ==> a[i] <= m
  {
    if |a| == 1 then a[0]
    else
      var rest := Maximum(a[..|a| - 1]);
      assert forall i :: 0 <= i < |a| - 1 ==> a[..|a| - 1][i] == a[i];
      if a[|a| - 1] > rest then a[|a| - 1] else rest
  }

  /** Σ (μ - a[i])² over the array */
  function SquaredDeviations(a: seq<real>, mu: real): real {
    if |a| == 0 then 0.0 else SquaredDeviations(a[..|a| - 1], mu) + (mu - a[|a| - 1]) * (mu - a[|a| - 1])
  }

  /** sum: the loop accumulates the elements in order */
  method ArraySum(values: seq<real>, n: nat) returns (s: real)
    requires |values| == n
    ensures s == Sum(values)
  {
    s := 0.0;
    var i := 0;
    while i < n
      invariant 0 <= i <= n
      invariant s == Sum(values[..i])
    {
      assert values[..i + 1][..i] == values[..i];
      s := s + values[i];
      i := i + 1;
    }
    assert values[..n] == values;
  }

  /** mean: sum / n, the average of the elements (n must be positive: the library divides by n unchecked) */
  function Mean(values: seq<real>, n: nat): (m: real)
    requires |values| == n && n >= 1
    ensures m * (n as real) == Sum(values)
  {
    Sum(values) / (n as real)
  }

  /** The sum is bounded by n times the minimum and n times the maximum */
  lemma {:induction false} SumBounds(a: seq<real>, lo: real, hi: real)
    requires forall i :: 0 <= i < |a| ==> lo <= a[i] <= hi
    ensures (|a| as real) * lo <= Sum(a) <= (|a| as real) * hi
  {
    if |a| > 0 {
      SumBounds(a[..|a| - 1], lo, hi);
    }
  }

  /** The mean of values that all lie in [lo, hi] lies in [lo, hi] */
  lemma MeanBounds(values: seq<real>, n: nat, lo: real, hi: real)
    requires |values| == n && n >= 1
    requires forall i :: 0 <= i < n ==> lo <= values[i] <= hi
    ensures lo <= Mean(values, n) <= hi
  {
    SumBounds(values, lo, hi);
    var m, nr := Mean(values, n), n as real;
    assert lo * nr <= m * nr;
    CancelPositive(lo, m, nr);
    CancelPositive(m, hi, nr);
  }

  /** The mean lies between the minimum and the maximum */
  lemma MeanBetweenExtremes(values: seq<real>, n: nat)
    requires |values| == n && n >= 1
    ensures Minimum(values) <= Mean(values, n) <= Maximum(values)
  {
    MeanBounds(values, n, Minimum(values), Maximum(values));
  }

  lemma CancelPositive(a: real, b: real, c: real)
    requires c > 0.0 && a * c <= b * c
    ensures a <= b
  {
  }

  /**
    median: the middle element for odd n and the average of the two middle elements for
    even n, read at those positions as the array is given (nothing sorts it).
    n must be positive: with n == 0 the library reads array[-1].
   */
  function Median(values: seq<real>, n: nat): (m: real)
    requires |values| == n && n >= 1
    ensures n % 2 == 1 ==> m == values[n / 2]
    ensures n % 2 == 0 ==> values[n / 2 - 1] <= m <= values[n / 2] || values[n / 2] <= m <= values[n / 2 - 1]
  {
    if n % 2 == 0 then (values[n / 2] + values[n / 2 - 1]) / 2.0 else values[n / 2]
  }

  predicate Sorted(a: seq<real>) {
    forall i, j :: 0 <= i < j < |a| ==> a[i] <= a[j]
  }

  /** On a sorted array the median splits the elements: the lower half is at most it and the upper half at least it */
  lemma MedianOfSorted(values: seq<real>, n: nat)
    requires |values| == n && n >= 1 && Sorted(values)
    ensures forall i :: 0 <= i < n / 2 ==> values[i] <= Median(values, n)
    ensures forall i :: n - n / 2 <= i < n ==> Median(values, n) <= values[i]
  {
  }

  /** The median lies between the minimum and the maximum */
  lemma MedianBetweenExtremes(values: seq<real>, n: nat)
    requires |values| == n && n >= 1
    ensures Minimum(values) <= Median(values, n) <= Maximum(values)
  {
    if n % 2 == 0 {
      assert Minimum(values) <= values[n / 2 - 1] <= Maximum(values);
      assert Minimum(values) <= values[n / 2] <= Maximum(values);
    }
  }

  /** min: the first element, replaced by every strictly smaller one (n must be positive: array[0] is read unchecked) */
  method Min(values: seq<real>, n: nat) returns (min: real)
    requires |values| == n && n >= 1
    ensures min in values
    ensures forall i :: 0 <= i < n ==> min <= values[i]
    ensures min == Minimum(values)
  {
    min := values[0];
    var i := 1;
    while i < n
      invariant 1 <= i <= n
      invariant min == Minimum(values[..i])
    {
      assert values[..i + 1][..i] == values[..i];
      if values[i] < min {
        min := values[i];
      }
      i := i + 1;
    }
    assert values[..n] == values;
  }

  /** max: the first element, replaced by every strictly larger one */
  method Max(values: seq<real>, n: nat) returns (max: real)
    requires |values| == n && n >= 1
    ensures max in values
    ensures forall i :: 0 <= i < n ==> values[i] <= max
    ensures max == Maximum(values)
  {
    max := values[0];
    var i := 1;
    while i < n
      invariant 1 <= i <= n
      invariant max == Maximum(values[..i])
    {
      assert values[..i + 1][..i] == values[..i];
      if values[i] > max {
        max := values[i];
      }
      i := i + 1;
    }
    assert values[..n] == values;
  }

  /**
    range: one scan keeping a running minimum and maximum, where the maximum is only
    considered when the element did not lower the minimum (`else if`). This loses nothing
    because the running minimum never exceeds the running maximum: an element below the
    minimum is below the maximum too.
   */
  method Range(values: seq<real>, n: nat) returns (r: real)
    requires |values| == n && n >= 1
    ensures r == Maximum(values) - Minimum(values)
    ensures r >= 0.0
  {
    var min := values[0];
    var max := values[0];
    var i := 1;
    while i < n
      invariant 1 <= i <= n
      invariant min == Minimum(values[..i])
      invariant max == Maximum(values[..i])
      invariant min <= max
    {
      assert values[..i + 1][..i] == values[..i];
      if values[i] < min {
        min := values[i];
      } else if values[i] > max {
        max := values[i];
      }
      i := i + 1;
    }
    assert values[..n] == values;
    r := max - min;
  }

  /** The sum of squared deviations is never negative */
  lemma {:induction false} SquaredDeviationsNonNegative(a: seq<real>, mu: real)
    ensures SquaredDeviations(a, mu) >= 0.0
  {
    if |a| > 0 {
      SquaredDeviationsNonNegative(a[..|a| - 1], mu);
      var d := mu - a[|a| - 1];
      assert d * d >= 0.0;
    }
  }

  /** The squared deviations from a value every element equals are zero */
  lemma {:induction false} SquaredDeviationsOfConstant(a: seq<real>, mu: real)
    requires forall i :: 0 <= i < |a| ==> a[i] == mu
    ensures SquaredDeviations(a, mu) == 0.0
  {
    if |a| > 0 {
      SquaredDeviationsOfConstant(a[..|a| - 1], mu);
    }
  }

  /** The sample variance Σ (μ - a[i])² / (n - 1), the quantity standardDeviation takes the square root of */
  function SampleVariance(values: seq<real>, n: nat): (v: real)
    requires |values| == n && n >= 2
    ensures v >= 0.0
  {
    SquaredDeviationsNonNegative(values, Mean(values, n));
    SquaredDeviations(values, Mean(values, n)) / ((n - 1) as real)
  }

  /** A constant array has variance zero */
  lemma VarianceOfConstant(values: seq<real>, n: nat)
    requires |values| == n && n >= 2
    requires forall i :: 0 <= i < n ==> values[i] == values[0]
    ensures Mean(values, n) == values[0]
    ensures SampleVariance(values, n) == 0.0
  {
    SumBounds(values, values[0], values[0]);
    var m, nr := Mean(values, n), n as real;
    assert Sum(values) == nr * values[0];
    assert m * nr == values[0] * nr;
    CancelPositive(m, values[0], nr);
    CancelPositive(values[0], m, nr);
    SquaredDeviationsOfConstant(values, values[0]);
  }

  /**
    standardDeviation: the square root of the sample variance (division by n - 1, so n
    must be at least 2; with n == 1 the library divides 0 by 0).
   */
  method StandardDeviation(values: seq<real>, n: nat, lib: Libm) returns (sd: real)
    requires |values| == n && n >= 2
    ensures sd == lib.sqrt(SampleVariance(values, n))
    ensures sd >= 0.0
  {
    var meanArray := Mean(values, n);
    var sumDeviationSquare := 0.0;
    var i := 0;
    while i < n
      invariant 0 <= i <= n
      invariant sumDeviationSquare == SquaredDeviations(values[..i], meanArray)
    {
      assert values[..i + 1][..i] == values[..i];
      sumDeviationSquare := sumDeviationSquare + (meanArray - values[i]) * (meanArray - values[i]);
      i := i + 1;
    }
    assert values[..n] == values;
    sumDeviationSquare := sumDeviationSquare / ((n - 1) as real);
    sd := lib.sqrt(sumDeviationSquare);
  }
}
