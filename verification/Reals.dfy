/** Real numbers where a machine has doubles: magnitudes, weighted means and geometric decay. */
module Reals {

  function Mag(x: real): (m: real)
    ensures 0.0 <= m && x <= m && -x <= m && (m == x || m == -x)
  {
    if x < 0.0 then -x else x
  }

  function MaxR(a: real, b: real): (m: real)
    ensures a <= m && b <= m && (m == a || m == b)
  {
    if a < b then b else a
  }

  lemma NonNegative(a: real, b: real)
    requires 0.0 <= a && 0.0 <= b
    ensures 0.0 <= a * b
  {
  }

  lemma Positive(a: real, b: real)
    requires 0.0 < a && 0.0 < b
    ensures 0.0 < a * b
  {
  }

  lemma Product(a: real, b: real, bound: real)
    requires 0.0 <= a && Mag(b) <= bound
    ensures Mag(a * b) == a * Mag(b)
    ensures Mag(a * b) <= a * bound
  {
    assert a * (bound - Mag(b)) >= 0.0;
    if b < 0.0 {
      assert a * -b == -(a * b) && a * -b >= 0.0;
    } else {
      assert a * b >= 0.0;
    }
  }

  lemma Regroup(a: real, b: real, c: real)
    ensures a * (b * c) == a * b * c
  {
  }

  lemma Splits(w: real, x: real)
    ensures w * x + (1.0 - w) * x == x
  {
  }

  lemma MeanIs(w: real, x: real, y: real)
    ensures y + w * (x - y) == w * x + (1.0 - w) * y
  {
  }

  lemma Triangle(p: real, r: real, a: real, b: real)
    requires Mag(p) <= a && Mag(r) <= b
    ensures Mag(p + r) <= a + b
  {
  }

  /** A weighted mean stays within its arguments' bound. */
  lemma Mean(w: real, x: real, y: real, bound: real)
    requires 0.0 <= w <= 1.0 && Mag(x) <= bound && Mag(y) <= bound
    ensures Mag(y + w * (x - y)) <= bound
  {
    Product(w, x, bound);
    Product(1.0 - w, y, bound);
    Triangle(w * x, (1.0 - w) * y, w * bound, (1.0 - w) * bound);
    Splits(w, bound);
    MeanIs(w, x, y);
  }

  function Pow(q: real, n: nat): real {
    if n == 0 then 1.0 else q * Pow(q, n - 1)
  }

  lemma {:induction false} PowRange(q: real, n: nat)
    requires 0.0 <= q <= 1.0
    ensures 0.0 <= Pow(q, n)
    ensures Pow(q, n) <= 1.0
  {
    if n > 0 {
      PowRange(q, n - 1);
      NonNegative(q, Pow(q, n - 1));
      NonNegative(1.0 - q, Pow(q, n - 1));
      Splits(q, Pow(q, n - 1));
    }
  }

  lemma {:induction false} Decay(q: real, h: real, n: nat)
    requires 0.0 < q && 0.0 < h && q * (1.0 + h) == 1.0
    ensures 0.0 < Pow(q, n) && Pow(q, n) * (1.0 + n as real * h) <= 1.0
  {
    if n > 0 {
      Decay(q, h, n - 1);
      var p, k := Pow(q, n - 1), (n - 1) as real;
      DecayStep(q, h, p, k);
      assert n as real == k + 1.0;
    }
  }

  lemma DecayStep(q: real, h: real, p: real, k: real)
    requires 0.0 < q && 0.0 < h && q * (1.0 + h) == 1.0 && 0.0 < p && 0.0 <= k && p * (1.0 + k * h) <= 1.0
    ensures 0.0 < q * p && q * p * (1.0 + (k + 1.0) * h) <= 1.0
  {
    assert (1.0 + k * h) * (1.0 + h) == 1.0 + (k + 1.0) * h + k * h * h;
    assert q * ((1.0 + k * h) * (1.0 + h)) == 1.0 + k * h;
    assert q * (k * h * h) >= 0.0;
    assert q * (1.0 + (k + 1.0) * h) <= 1.0 + k * h;
    assert p * (q * (1.0 + (k + 1.0) * h)) <= p * (1.0 + k * h);
    assert q * p * (1.0 + (k + 1.0) * h) == p * (q * (1.0 + (k + 1.0) * h));
  }

  /** Whatever decays geometrically falls below any threshold. */
  lemma Vanishes(q: real, c: real, eps: real) returns (n: nat)
    requires 0.0 <= q < 1.0 && 0.0 <= c && 0.0 < eps
    ensures c * Pow(q, n) < eps
  {
    if q == 0.0 {
      n := 1;
    } else {
      var h := (1.0 - q) / q;
      assert q * h == 1.0 - q;
      assert q * (1.0 + h) == 1.0;
      n := (c / (eps * h)).Floor + 1;
      Decay(q, h, n);
      Below(Pow(q, n), c, eps, h, n as real);
    }
  }

  lemma Below(p: real, c: real, eps: real, h: real, n: real)
    requires 0.0 < p && 0.0 <= c && 0.0 < eps && 0.0 < h && c / (eps * h) < n && p * (1.0 + n * h) <= 1.0
    ensures c * p < eps
  {
    var g := eps * h;
    assert c < n * g by { assert c / g * g == c; assert (n - c / g) * g > 0.0; }
    assert n * g == eps * (n * h);
    assert c * p < eps * (n * h) * p by { assert (eps * (n * h) - c) * p > 0.0; }
    assert eps * (n * h) * p == eps * (p * (1.0 + n * h) - p);
    assert eps * (p * (1.0 + n * h)) <= eps;
    assert eps * p > 0.0;
  }

  /** Further on it is smaller still. */
  lemma {:induction false} PowDecreases(q: real, m: nat, n: nat)
    requires 0.0 <= q <= 1.0 && m <= n
    ensures Pow(q, n) <= Pow(q, m)
  {
    if m < n {
      PowDecreases(q, m, n - 1);
      PowRange(q, n - 1);
      assert q * Pow(q, n - 1) <= Pow(q, n - 1);
    }
  }
}
