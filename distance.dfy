/** The index-loop Euclidean distance of test/DistanceTest.php, over vectors of
    any length. The square root is monotone, so the model works with the sum of
    squared differences that the loop accumulates before taking it. */
module Distance {
  import opened Numeric

  /** Sum of squared coordinate differences over the first n coordinates. */
  function SquaredDistanceUpTo(p1: seq<real>, p2: seq<real>, n: nat): real
    requires n <= |p1| <= |p2|
  {
    if n == 0 then 0.0
    else SquaredDistanceUpTo(p1, p2, n - 1) + Square(p1[n - 1] - p2[n - 1])
  }

  /** The loop runs over the indices of p1 and reads p2 at each of them. */
  function SquaredDistance(p1: seq<real>, p2: seq<real>): real
    requires |p1| <= |p2|
  {
    SquaredDistanceUpTo(p1, p2, |p1|)
  }

  /** The accumulator loop: sum += (p1[i] - p2[i])^2 for every i < count(p1). */
  method EuclideanSquared(p1: seq<real>, p2: seq<real>) returns (sum: real)
    requires |p1| <= |p2|
    ensures sum == SquaredDistance(p1, p2)
    ensures sum >= 0.0
  {
    sum := 0.0;
    var i := 0;
    while i < |p1|
      invariant 0 <= i <= |p1|
      invariant sum == SquaredDistanceUpTo(p1, p2, i)
      invariant sum >= 0.0
    {
      sum := sum + Square(p1[i] - p2[i]);
      i := i + 1;
    }
  }

  lemma {:induction false} NonNegativeUpTo(p1: seq<real>, p2: seq<real>, n: nat)
    requires n <= |p1| <= |p2|
    ensures SquaredDistanceUpTo(p1, p2, n) >= 0.0
  {
    if n > 0 {
      NonNegativeUpTo(p1, p2, n - 1);
    }
  }

  /** The squared distance is never negative. */
  lemma NonNegative(p1: seq<real>, p2: seq<real>)
    requires |p1| <= |p2|
    ensures SquaredDistance(p1, p2) >= 0.0
  {
    NonNegativeUpTo(p1, p2, |p1|);
  }

  lemma {:induction false} SymmetricUpTo(p1: seq<real>, p2: seq<real>, n: nat)
    requires n <= |p1| == |p2|
    ensures SquaredDistanceUpTo(p1, p2, n) == SquaredDistanceUpTo(p2, p1, n)
  {
    if n > 0 {
      SymmetricUpTo(p1, p2, n - 1);
      assert Square(p1[n - 1] - p2[n - 1]) == Square(p2[n - 1] - p1[n - 1]);
    }
  }

  /** Swapping the two points of equal length gives the same distance. */
  lemma Symmetric(p1: seq<real>, p2: seq<real>)
    requires |p1| == |p2|
    ensures SquaredDistance(p1, p2) == SquaredDistance(p2, p1)
  {
    SymmetricUpTo(p1, p2, |p1|);
  }

  lemma {:induction false} ZeroUpToIffEqual(p1: seq<real>, p2: seq<real>, n: nat)
    requires n <= |p1| <= |p2|
    ensures p1[..n] == p2[..n] ==> SquaredDistanceUpTo(p1, p2, n) == 0.0
    ensures p1[..n] != p2[..n] ==> SquaredDistanceUpTo(p1, p2, n) > 0.0
  {
    if n > 0 {
      ZeroUpToIffEqual(p1, p2, n - 1);
      NonNegativeUpTo(p1, p2, n - 1);
      SquarePositive(p1[n - 1] - p2[n - 1]);
      assert p1[..n] == p1[..n - 1] + [p1[n - 1]];
      assert p2[..n] == p2[..n - 1] + [p2[n - 1]];
      if p1[..n] == p2[..n] {
        assert p1[..n - 1] == p1[..n][..n - 1];
        assert p2[..n - 1] == p2[..n][..n - 1];
        assert p1[n - 1] == p1[..n][n - 1];
        assert p2[n - 1] == p2[..n][n - 1];
      }
    }
  }

  /** The distance is zero exactly when the two points coincide
      (a point's distance to itself is zero, and only to itself). */
  lemma ZeroIffEqual(p1: seq<real>, p2: seq<real>)
    requires |p1| == |p2|
    ensures SquaredDistance(p1, p2) == 0.0 <==> p1 == p2
  {
    ZeroUpToIffEqual(p1, p2, |p1|);
    assert p1[..|p1|] == p1 && p2[..|p2|] == p2;
  }

  /** (0,0)-(3,4): 25, the square of the expected distance 5. */
  lemma ThreeFourFive()
    ensures SquaredDistance([0.0, 0.0], [3.0, 4.0]) == 25.0 == Square(5.0)
  {
    assert SquaredDistanceUpTo([0.0, 0.0], [3.0, 4.0], 1) == 9.0;
  }

  /** (1,5)-(4,5): 9, the square of the expected distance 3. */
  lemma HorizontalOnly()
    ensures SquaredDistance([1.0, 5.0], [4.0, 5.0]) == 9.0 == Square(3.0)
  {
    assert SquaredDistanceUpTo([1.0, 5.0], [4.0, 5.0], 1) == 9.0;
  }

  /** (2,2)-(2,10): 64, the square of the expected distance 8. */
  lemma VerticalOnly()
    ensures SquaredDistance([2.0, 2.0], [2.0, 10.0]) == 64.0 == Square(8.0)
  {
    assert SquaredDistanceUpTo([2.0, 2.0], [2.0, 10.0], 1) == 0.0;
  }

  /** (0,0)-(1,1): 2, whose root is the expected 1.4142 (to four places). */
  lemma UnitSquareDiagonal()
    ensures SquaredDistance([0.0, 0.0], [1.0, 1.0]) == 2.0
    ensures Square(1.4142) <= 2.0 <= Square(1.4143)
  {
    assert SquaredDistanceUpTo([0.0, 0.0], [1.0, 1.0], 1) == 1.0;
  }

  /** (100,100)-(130,140): 2500, the square of the expected distance 50. */
  lemma ThirtyFortyFifty()
    ensures SquaredDistance([100.0, 100.0], [130.0, 140.0]) == 2500.0 == Square(50.0)
  {
    assert SquaredDistanceUpTo([100.0, 100.0], [130.0, 140.0], 1) == 900.0;
  }
}
