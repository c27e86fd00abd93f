/** The clamped min-max scaling of test/NormalizationTest.php:
    (value - min) / (max - min), forced into [0, 1], with 0 returned when the
    range is empty so that nothing is divided by zero. */
module MinMax {
  import Numeric

  /** PHP's max(0, min(1, x)). */
  function Clamp(x: real): (r: real)
    ensures 0.0 <= r <= 1.0
    ensures 0.0 <= x <= 1.0 ==> r == x
    ensures x < 0.0 ==> r == 0.0
    ensures x > 1.0 ==> r == 1.0
  {
    var upper := if 1.0 < x then 1.0 else x;
    if 0.0 < upper then upper else 0.0
  }

  function NormalizeData(value: real, min: real, max: real): (r: real)
    ensures 0.0 <= r <= 1.0
    ensures max == min ==> r == 0.0
  {
    if max == min then 0.0
    else Clamp((value - min) / (max - min))
  }

  /** For a positive divisor, a quotient lies in [0, 1] exactly when the dividend lies in [0, divisor]. */
  lemma QuotientInUnit(a: real, b: real)
    requires b > 0.0
    ensures 0.0 <= a ==> 0.0 <= a / b
    ensures a <= b ==> a / b <= 1.0
    ensures a < 0.0 ==> a / b < 0.0
    ensures a > b ==> a / b > 1.0
  {
    var q := a / b;
    assert q * b == a;
    if q < 0.0 {
      calc { a; == q * b; == -((-q) * b); < { Numeric.PositiveProduct(-q, b); } 0.0; }
    }
    if q > 1.0 {
      calc { a; == q * b; == (q - 1.0) * b + b; > { Numeric.PositiveProduct(q - 1.0, b); } b; }
    }
    if a > b && q <= 1.0 {
      calc { a; == q * b; == b - (1.0 - q) * b; <= { Numeric.NonNegativeProduct(1.0 - q, b); } b; }
    }
  }

  /** Inside a proper range the clamp does nothing: the result is the plain min-max ratio. */
  lemma InRange(value: real, min: real, max: real)
    requires min < max && min <= value <= max
    ensures NormalizeData(value, min, max) == (value - min) / (max - min)
  {
    QuotientInUnit(value - min, max - min);
  }

  /** Values below a proper range clamp to 0, values above it clamp to 1. */
  lemma OutOfRange(value: real, min: real, max: real)
    requires min < max
    ensures value < min ==> NormalizeData(value, min, max) == 0.0
    ensures value > max ==> NormalizeData(value, min, max) == 1.0
  {
    QuotientInUnit(value - min, max - min);
  }

  /** The two ends of any non-empty range (in either orientation) map to 0 and 1. */
  lemma Endpoints(min: real, max: real)
    requires min != max
    ensures NormalizeData(min, min, max) == 0.0
    ensures NormalizeData(max, min, max) == 1.0
  {
    var x := max - min;
    assert x / x == 1.0;
    assert 0.0 / x == 0.0;
  }

  /** Scaling back undoes the normalization inside a proper range. */
  lemma RoundTrip(value: real, min: real, max: real)
    requires min < max && min <= value <= max
    ensures min + NormalizeData(value, min, max) * (max - min) == value
  {
    InRange(value, min, max);
    var q := (value - min) / (max - min);
    assert q * (max - min) == value - min;
  }

  /** Over a proper range the normalization never reverses the order of two values. */
  lemma Monotone(v1: real, v2: real, min: real, max: real)
    requires min < max && v1 <= v2
    ensures NormalizeData(v1, min, max) <= NormalizeData(v2, min, max)
  {
    var b := max - min;
    var q1 := (v1 - min) / b;
    var q2 := (v2 - min) / b;
    assert q1 * b == v1 - min && q2 * b == v2 - min;
    if q1 > q2 {
      calc { v1 - v2; == q1 * b - q2 * b; == (q1 - q2) * b; > { Numeric.PositiveProduct(q1 - q2, b); } 0.0; }
    }
  }

  /** The five cases the test file checks. */
  lemma TestCases()
    ensures NormalizeData(50.0, 0.0, 100.0) == 0.5
    ensures NormalizeData(1000.0, 1000.0, 5000.0) == 0.0
    ensures NormalizeData(5000.0, 1000.0, 5000.0) == 1.0
    ensures NormalizeData(100.0, 100.0, 100.0) == 0.0
    ensures NormalizeData(0.0, -100.0, 100.0) == 0.5
  {
  }
}
