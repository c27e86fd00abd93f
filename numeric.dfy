/** Sums, means and variances over sequences of reals: the arithmetic that
    run_clustering.php gets from array_sum, count and its variance loop. */
module Numeric {

  /** The sum of a sequence, adding its elements one by one from the front
      (the last element is added last, as a running accumulator does). */
  function Sum(xs: seq<real>): real
  {
    if xs == [] then 0.0 else Sum(xs[..|xs| - 1]) + xs[|xs| - 1]
  }

  /** Arithmetic mean; PHP divides by count() and fails on an empty array. */
  function Mean(xs: seq<real>): real
    requires |xs| > 0
  {
    Sum(xs) / (|xs| as real)
  }

  /** |xs| copies of the mean add up to the sum. */
  lemma CountTimesMean(xs: seq<real>)
    requires |xs| > 0
    ensures (|xs| as real) * Mean(xs) == Sum(xs)
  {
    var n, s := |xs| as real, Sum(xs);
    assert n * (s / n) == s;
  }

  function Square(x: real): real { x * x }

  /** A square is never negative, and is positive unless its root is zero. */
  lemma SquarePositive(d: real)
    ensures Square(d) >= 0.0
    ensures d != 0.0 ==> Square(d) > 0.0
  {
    if d > 0.0 {
      calc { Square(d); d * d; > { PositiveProduct(d, d); } 0.0; }
    } else if d < 0.0 {
      calc { Square(d); d * d; > { NegativeProduct(d, d); } 0.0; }
    }
  }

  lemma PositiveProduct(a: real, b: real)
    requires a > 0.0 && b > 0.0
    ensures a * b > 0.0
  {
  }

  lemma NegativeProduct(a: real, b: real)
    requires a < 0.0 && b < 0.0
    ensures a * b > 0.0
  {
  }

  lemma NonNegativeProduct(a: real, b: real)
    requires a >= 0.0 && b >= 0.0
    ensures a * b >= 0.0
  {
  }

  /** Each element's squared deviation from m. */
  function SquaredDeviations(xs: seq<real>, m: real): (r: seq<real>)
    ensures |r| == |xs|
  {
    seq(|xs|, i requires 0 <= i < |xs| => Square(xs[i] - m))
  }

  /** Population variance: the mean squared deviation from the mean. */
  function Variance(xs: seq<real>): real
    requires |xs| > 0
  {
    Sum(SquaredDeviations(xs, Mean(xs))) / (|xs| as real)
  }

  /** Each element centred on m and divided by d. */
  function Standardize(xs: seq<real>, m: real, d: real): (r: seq<real>)
    requires d != 0.0
    ensures |r| == |xs|
  {
    seq(|xs|, i requires 0 <= i < |xs| => (xs[i] - m) / d)
  }

  /** A running total grows by the next element. */
  lemma SumPrefixStep(xs: seq<real>, i: nat)
    requires i < |xs|
    ensures Sum(xs[..i + 1]) == Sum(xs[..i]) + xs[i]
  {
    assert xs[..i + 1][..i] == xs[..i];
  }

  /** Sum distributes over concatenation. */
  lemma {:induction false} SumAppend(a: seq<real>, b: seq<real>)
    ensures Sum(a + b) == Sum(a) + Sum(b)
    decreases |b|
  {
    if b == [] {
      assert a + b == a;
    } else {
      var b' := b[..|b| - 1];
      assert (a + b)[..|a + b| - 1] == a + b';
      SumAppend(a, b');
    }
  }

  /** A sum of non-negative terms is non-negative. */
  lemma {:induction false} SumNonNegative(xs: seq<real>)
    requires forall i :: 0 <= i < |xs| ==> xs[i] >= 0.0
    ensures Sum(xs) >= 0.0
  {
    if xs != [] {
      SumNonNegative(xs[..|xs| - 1]);
    }
  }

  /** A sum of non-negative terms is zero only when every term is zero. */
  lemma {:induction false} SumZeroMeansAllZero(xs: seq<real>)
    requires forall i :: 0 <= i < |xs| ==> xs[i] >= 0.0
    requires Sum(xs) == 0.0
    ensures forall i :: 0 <= i < |xs| ==> xs[i] == 0.0
  {
    if xs != [] {
      var init := xs[..|xs| - 1];
      SumNonNegative(init);
      SumZeroMeansAllZero(init);
      assert forall i :: 0 <= i < |init| ==> xs[i] == init[i];
    }
  }

  /** Each element's deviation from m. */
  function Deviations(xs: seq<real>, m: real): (r: seq<real>)
    ensures |r| == |xs|
  {
    seq(|xs|, i requires 0 <= i < |xs| => xs[i] - m)
  }

  /** Deviations from m sum to the sum less |xs| copies of m. */
  lemma {:induction false} SumDeviations(xs: seq<real>, m: real)
    ensures Sum(Deviations(xs, m)) == Sum(xs) - (|xs| as real) * m
  {
    if xs == [] {
      assert (|xs| as real) * m == 0.0;
    } else {
      var n := |xs|;
      var init := xs[..n - 1];
      assert Deviations(xs, m)[..n - 1] == Deviations(init, m);
      SumDeviations(init, m);
      var c := |init| as real;
      assert (c + 1.0) * m == c * m + m;
    }
  }

  /** Dividing every deviation by d divides their sum by d. */
  lemma {:induction false} SumStandardize(xs: seq<real>, m: real, d: real)
    requires d != 0.0
    ensures Sum(Standardize(xs, m, d)) == Sum(Deviations(xs, m)) / d
  {
    if xs != [] {
      var n := |xs|;
      var init := xs[..n - 1];
      assert Standardize(xs, m, d)[..n - 1] == Standardize(init, m, d);
      assert Deviations(xs, m)[..n - 1] == Deviations(init, m);
      SumStandardize(init, m, d);
      AddQuotients(Sum(Deviations(init, m)), xs[n - 1] - m, d);
    }
  }

  /** Dividing every deviation by d divides the sum of their squares by d². */
  lemma {:induction false} SumSquaredStandardize(xs: seq<real>, m: real, d: real)
    requires d != 0.0
    ensures Sum(SquaredDeviations(Standardize(xs, m, d), 0.0)) == Sum(SquaredDeviations(xs, m)) / (d * d)
  {
    SquarePositive(d);
    if xs != [] {
      var n := |xs|;
      var init := xs[..n - 1];
      assert Standardize(xs, m, d)[..n - 1] == Standardize(init, m, d);
      assert SquaredDeviations(Standardize(xs, m, d), 0.0)[..n - 1]
          == SquaredDeviations(Standardize(init, m, d), 0.0);
      assert SquaredDeviations(xs, m)[..n - 1] == SquaredDeviations(init, m);
      SumSquaredStandardize(init, m, d);
      SquareQuotient(xs[n - 1] - m, d);
      AddQuotients(Sum(SquaredDeviations(init, m)), Square(xs[n - 1] - m), d * d);
    }
  }

  lemma SquareQuotient(a: real, d: real)
    requires d != 0.0
    ensures Square(a / d) == Square(a) / (d * d)
  {
    var q := a / d;
    assert a == q * d;
    assert Square(a) == (q * q) * (d * d);
    SquarePositive(d);
  }

  lemma AddQuotients(a: real, b: real, d: real)
    requires d != 0.0
    ensures a / d + b / d == (a + b) / d
  {
  }
}
