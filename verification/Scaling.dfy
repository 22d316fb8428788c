/** Multiplying an accumulator by a power of a positive real.

    The analyzer adds e * ln(b) to its accumulator; on the exponential scale that is r * b^e. */
module Scaling {
  function Scale(r: real, b: real, n: nat): real
    decreases n
  {
    if n == 0 then r else Scale(r * b, b, n - 1)
  }

  lemma Unfold(r: real, b: real, n: nat, rb: real)
    requires n > 0 && rb == r * b
    ensures Scale(r, b, n) == Scale(rb, b, n - 1)
  {}

  lemma {:induction false} ScalePositive(r: real, b: real, n: nat)
    requires r > 0.0 && b > 0.0
    ensures Scale(r, b, n) > 0.0
    decreases n
  {
    if n == 0 {
    } else {
      ScalePositive(r * b, b, n - 1);
    }
  }

  /** Scaling is linear in the accumulator. */
  lemma {:induction false} ScaleLinear(c: real, r: real, cr: real, b: real, n: nat)
    requires cr == c * r
    ensures Scale(cr, b, n) == c * Scale(r, b, n)
    decreases n
  {
    if n == 0 {
    } else {
      var r1, cr1 := r * b, cr * b;
      assert cr1 == c * r1;
      ScaleLinear(c, r1, cr1, b, n - 1);
      Unfold(r, b, n, r1);
      Unfold(cr, b, n, cr1);
    }
  }

  /** One more factor, taken out at the end instead of at the front. */
  lemma ScaleSnoc(r: real, b: real, n: nat)
    ensures Scale(r, b, n + 1) == b * Scale(r, b, n)
  {
    ScaleLinear(b, r, r * b, b, n);
  }

  /** Exponents add: scaling in two instalments is scaling once by their sum. */
  lemma {:induction false} ScaleAdd(r: real, b: real, x: nat, y: nat)
    ensures Scale(Scale(r, b, x), b, y) == Scale(r, b, x + y)
    decreases x
  {
    if x == 0 {
    } else {
      ScaleAdd(r * b, b, x - 1, y);
      assert x - 1 + y == x + y - 1;
    }
  }

  /** Factors commute. */
  lemma {:induction false} ScaleCommute(r: real, b: real, x: nat, c: real, y: nat)
    ensures Scale(Scale(r, b, x), c, y) == Scale(Scale(r, c, y), b, x)
    decreases x
  {
    if x == 0 {
    } else {
      ScaleCommute(r * b, b, x - 1, c, y);
      ScaleLinear(b, r, r * b, c, y);
    }
  }

  lemma MulMono(c: real, x: real, y: real)
    requires c >= 0.0 && x <= y
    ensures c * x <= c * y
  {
    assert c * (y - x) >= 0.0;
  }

  lemma GrowthStep(r: real, x: real, m: real, n: real, rb: real)
    requires r >= 0.0 && x >= 0.0 && m >= 0.0 && n == m + 1.0 && rb == r * (1.0 + x)
    ensures rb * (1.0 + m * x) >= r * (1.0 + n * x)
  {
    var k := (1.0 + x) * (1.0 + m * x);
    assert m * x * x >= 0.0;
    assert k == 1.0 + n * x + m * x * x;
    MulMono(r, 1.0 + n * x, k);
    assert rb * (1.0 + m * x) == r * k;
  }

  /** Bernoulli's inequality for a growing factor. */
  lemma {:induction false} ScaleGrowth(r: real, b: real, n: nat)
    requires b >= 1.0 && r >= 0.0
    ensures Scale(r, b, n) >= r * (1.0 + n as real * (b - 1.0))
    decreases n
  {
    if n == 0 {
    } else {
      var rb := r * b;
      MulMono(r, 1.0, b);
      Unfold(r, b, n, rb);
      ScaleGrowth(rb, b, n - 1);
      GrowthStep(r, b - 1.0, (n - 1) as real, n as real, rb);
    }
  }

  lemma DecayStep(s: real, q: real, r: real, y: real, m: real, n: real)
    requires s >= 0.0 && y >= 0.0 && m >= 0.0 && n == m + 1.0
    requires s * (1.0 + m * y) <= q && q * (1.0 + y) == r
    ensures s * (1.0 + n * y) <= r
  {
    var sy := s * (1.0 + y);
    GrowthStep(s, y, m, n, sy);
    var k := s * (1.0 + m * y);
    assert sy * (1.0 + m * y) == k * (1.0 + y);
    MulMono(1.0 + y, k, q);
  }

  /** Bernoulli's inequality for the shrinking factor 1 / (1 + y). */
  lemma {:induction false} ScaleDecay(r: real, b: real, y: real, n: nat)
    requires r >= 0.0 && b >= 0.0 && y >= 0.0 && b * (1.0 + y) == 1.0
    ensures 0.0 <= Scale(r, b, n)
    ensures Scale(r, b, n) * (1.0 + n as real * y) <= r
    decreases n
  {
    if n == 0 {
    } else {
      var q := r * b;
      MulMono(r, 0.0, b);
      Unfold(r, b, n, q);
      ScaleDecay(q, b, y, n - 1);
      assert q * (1.0 + y) == r by {
        assert q * (1.0 + y) == r * (b * (1.0 + y));
      }
      DecayStep(Scale(q, b, n - 1), q, r, y, (n - 1) as real, n as real);
    }
  }

  lemma SameSign(d: real, y: real)
    requires y > 0.0
    ensures d * y > 0.0 <==> d > 0.0
    ensures d * y < 0.0 <==> d < 0.0
  {}

  lemma QuotientOrder(x: real, y: real)
    requires x > 0.0 && y > 0.0
    ensures x / y > 0.0
    ensures x / y < 1.0 <==> x < y
    ensures x / y > 1.0 <==> x > y
  {
    var q := x / y;
    assert q * y == x;
    assert (q - 1.0) * y == x - y;
    SameSign(q, y);
    SameSign(q - 1.0, y);
  }

  lemma QuotientExcess(x: real, y: real)
    requires y > 0.0
    ensures x / y - 1.0 == (x - y) / y
  {
    var g, h := x / y, (x - y) / y;
    assert g * y == x;
    assert h * y == x - y;
    SameSign(g - 1.0 - h, y);
  }

  lemma QuotientInverse(x: real, y: real)
    requires x > 0.0 && y > 0.0
    ensures x / y > 0.0 && 1.0 / (x / y) == y / x
  {
    QuotientOrder(x, y);
    var l, w, g := x / y, 1.0 / (x / y), y / x;
    assert l * y == x;
    assert w * l == 1.0;
    assert g * x == y;
    assert w * x == (w * l) * y;
    SameSign(w - g, x);
  }

  /** The sign of t read off its product p with a positive d. */
  lemma SignOfFactor(t: real, d: real, p: real)
    requires d > 0.0 && t * d == p
    ensures p > 0.0 <==> t > 0.0
    ensures p < 0.0 <==> t < 0.0
  {
    SameSign(t, d);
  }

  // A quotient as a number with its defining equation.
  lemma Quotient(n: real, d: real) returns (q: real)
    requires d != 0.0
    ensures q == n / d && q * d == n
  {
    q := n / d;
  }
}
