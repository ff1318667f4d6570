/**
 * Exact arithmetic for the monetary and stock values of the backend.
 * JavaScript numbers are modelled as exact reals; `Math.round(x * 100) / 100`
 * becomes `Round2`, and `Math.floor` becomes `Floor`.
 */
module Numeric {

  /**
   * The product of two numbers. Products of two unknowns are kept behind this
   * function so that the solver treats them as terms of their own.
   */
  function Mul(a: real, b: real): real
  {
    a * b
  }

  /** `Math.floor` */
  function Floor(x: real): (r: int)
    ensures r as real <= x < r as real + 1.0
  {
    x.Floor
  }

  /** `Math.ceil` */
  function Ceil(x: real): (r: int)
    ensures x <= r as real < x + 1.0
  {
    -((-x).Floor)
  }

  /** `Math.round(x * 100) / 100`: `Math.round` rounds half-way cases up. */
  function Round2(x: real): (r: real)
    ensures x - 0.005 < r <= x + 0.005
    ensures TwoDecimals(r)
  {
    Floor(100.0 * x + 0.5) as real / 100.0
  }

  /** x has at most two decimal places. */
  predicate TwoDecimals(x: real)
  {
    Floor(100.0 * x) as real == 100.0 * x
  }

  /** Rounding a value that already has two decimals leaves it unchanged. */
  lemma Round2Exact(x: real)
    requires TwoDecimals(x)
    ensures Round2(x) == x
  {
    var k := Floor(100.0 * x);
    var m := Floor(100.0 * x + 0.5);
    assert m as real <= k as real + 0.5 < m as real + 1.0;
    assert m - 1 < k < m + 1;
  }

  /** Sums and differences of two-decimal values have two decimals. */
  lemma TwoDecimalsClosed(a: real, b: real)
    requires TwoDecimals(a) && TwoDecimals(b)
    ensures TwoDecimals(a + b) && TwoDecimals(a - b)
  {
    var ka, kb := Floor(100.0 * a), Floor(100.0 * b);
    assert 100.0 * a == ka as real && 100.0 * b == kb as real;
    assert 100.0 * (a + b) == (ka + kb) as real by {
      assert 100.0 * (a + b) == 100.0 * a + 100.0 * b;
    }
    assert 100.0 * (a - b) == (ka - kb) as real by {
      assert 100.0 * (a - b) == 100.0 * a - 100.0 * b;
    }
    FloorOfWhole(ka + kb);
    FloorOfWhole(ka - kb);
  }

  /** A whole number is its own floor. */
  lemma FloorOfWhole(k: int)
    ensures Floor(k as real) == k
  {
  }

  /** Round2 never turns a value above -0.005 into a negative one. */
  lemma Round2NonNegative(x: real)
    requires x > -0.005
    ensures Round2(x) >= 0.0
  {
  }

  /** Integers have two decimals. */
  lemma IntTwoDecimals(n: int)
    ensures TwoDecimals(n as real)
  {
    assert 100.0 * (n as real) == (100 * n) as real;
  }

  /** Multiplying by a non-negative integer keeps order. */
  lemma {:induction false} MulLe(a: int, b: int, l: int)
    requires a <= b && l >= 0
    ensures a * l <= b * l
    decreases b - a
  {
    if a < b {
      MulLe(a + 1, b, l);
      assert (a + 1) * l == a * l + l;
    }
  }

  /** Multiplying by a non-negative real keeps order. */
  lemma RealMulLe(a: real, b: real, l: real)
    requires a <= b && l >= 0.0
    ensures a * l <= b * l
  {
    assert (b - a) * l >= 0.0;
  }
}
