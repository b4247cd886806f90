/** How much two rates leave after so many samples, between bounds. */
module Rates {
  import opened Reals

  /** A rate the echoes of all rooms follow, techno's while its feedback stays at or under 0.534. */
  const FAST := 0.999964

  /** A rate techno's echo follows at any feedback it reaches. */
  const SLOW := 0.9999855

  lemma {:induction false} PowAtLeast(d: real, n: nat)
    requires 0.0 <= d <= 1.0
    ensures 1.0 - n as real * d <= Pow(1.0 - d, n)
  {
    if n > 0 {
      PowAtLeast(d, n - 1);
      PowRange(1.0 - d, n - 1);
      LessOf(d, Pow(1.0 - d, n - 1));
      assert n as real == (n - 1) as real + 1.0;
    }
  }

  lemma LessOf(d: real, p: real)
    requires 0.0 <= d && p <= 1.0
    ensures p - d <= (1.0 - d) * p
  {
    NonNegative(d, 1.0 - p);
  }

  lemma {:induction false} PowAtMost(d: real, n: nat)
    requires 0.0 <= d < 1.0
    ensures 0.0 <= Pow(1.0 - d, n)
    ensures Pow(1.0 - d, n) * (1.0 + n as real * d) <= 1.0
  {
    if n > 0 {
      PowAtMost(d, n - 1);
      var p, k := Pow(1.0 - d, n - 1), (n - 1) as real;
      assert n as real == k + 1.0;
      NonNegative(1.0 - d, p);
      OneMoreStep(d, p, k);
    }
  }

  lemma OneMoreStep(d: real, p: real, k: real)
    requires 0.0 <= d < 1.0 && 0.0 <= p && 0.0 <= k && p * (1.0 + k * d) <= 1.0
    ensures (1.0 - d) * p * (1.0 + (k + 1.0) * d) <= 1.0
  {
    var x := (k + 1.0) * d;
    assert 1.0 + k * d == 1.0 + x - d;
    assert (1.0 - d) * (1.0 + x) == 1.0 + x - d - d * x;
    NonNegative(d, x);
    NonNegative(p, d * x);
    assert (1.0 - d) * p * (1.0 + x) == p * ((1.0 - d) * (1.0 + x));
    assert p * (1.0 + x - d - d * x) == p * (1.0 + x - d) - p * (d * x);
  }

  lemma {:induction false} PowSum(q: real, m: nat, n: nat)
    ensures Pow(q, m + n) == Pow(q, m) * Pow(q, n)
  {
    if m > 0 {
      PowSum(q, m - 1, n);
      Regroup(q, Pow(q, m - 1), Pow(q, n));
    }
  }

  predicate Between(q: real, n: nat, lo: real, hi: real) {
    0.0 <= lo <= Pow(q, n) <= hi
  }

  lemma PowerProduct(q: real, m: nat, lo: real, hi: real, n: nat, low: real, high: real)
    requires Between(q, m, lo, hi) && Between(q, n, low, high)
    ensures Between(q, m + n, lo * low, hi * high)
  {
    hide Pow;
    PowSum(q, m, n);
    ProductBetween(Pow(q, m), lo, hi, Pow(q, n), low, high);
  }

  lemma ProductBetween(a: real, lo: real, hi: real, b: real, low: real, high: real)
    requires 0.0 <= lo <= a <= hi && 0.0 <= low <= b <= high
    ensures 0.0 <= lo * low
    ensures lo * low <= a * b
    ensures a * b <= hi * high
  {
    NonNegative(lo, low);
    NonNegative(a - lo, b);
    NonNegative(lo, b - low);
    NonNegative(hi - a, b);
    NonNegative(hi, high - b);
  }

  /** Twice the exponent, the bounds squared and rounded outward. */
  lemma Twice(q: real, n: nat, lo: real, hi: real, low: real, high: real)
    requires Between(q, n, lo, hi) && 0.0 <= low <= lo * lo && hi * hi <= high
    ensures Between(q, 2 * n, low, high)
  {
    hide Pow;
    PowerProduct(q, n, lo, hi, n, lo, hi);
  }

  lemma FirstBlock(d: real, n: nat, lo: real, hi: real)
    requires 0.0 <= d < 1.0 && 0.0 <= lo <= 1.0 - n as real * d && 1.0 <= hi * (1.0 + n as real * d)
    ensures Between(1.0 - d, n, lo, hi)
  {
    PowAtLeast(d, n);
    PowAtMost(d, n);
    var p, k := Pow(1.0 - d, n), 1.0 + n as real * d;
    hide Pow;
    NonNegative(n as real, d);
    NoMore(p, hi, k);
  }

  lemma NoMore(p: real, hi: real, k: real)
    requires 0.0 < k && p * k <= 1.0 && 1.0 <= hi * k
    ensures p <= hi
  {
    if hi < p {
      Positive(p - hi, k);
    }
  }

  lemma FastPowers()
    ensures Between(FAST, 28800, 0.3521, 1.0) && Between(FAST, 21600, 0.457, 1.0) && Between(FAST, 17280, 0.5346, 1.0)
    ensures Between(FAST, 285120, 0.0, 0.0000373)
  {
    hide Pow, Between;
    FirstBlock(0.000036, 360, 0.98704, 0.9872059);
    Twice(FAST, 360, 0.98704, 0.9872059, 0.9742479, 0.9745755);
    Twice(FAST, 720, 0.9742479, 0.9745755, 0.9491589, 0.9497975);
    Twice(FAST, 1440, 0.9491589, 0.9497975, 0.9009026, 0.9021153);
    Twice(FAST, 2880, 0.9009026, 0.9021153, 0.8116254, 0.8138121);
    Twice(FAST, 5760, 0.8116254, 0.8138121, 0.6587357, 0.6622902);
    Twice(FAST, 11520, 0.6587357, 0.6622902, 0.4339327, 0.4386284);
    Twice(FAST, 23040, 0.4339327, 0.4386284, 0.1882975, 0.1923949);
    Twice(FAST, 46080, 0.1882975, 0.1923949, 0.0354559, 0.0370158);
    Twice(FAST, 92160, 0.0354559, 0.0370158, 0.0012571, 0.0013702);
    FastSums();
  }

  lemma FastSums()
    requires Between(FAST, 1440, 0.9491589, 0.9497975) && Between(FAST, 2880, 0.9009026, 0.9021153)
    requires Between(FAST, 5760, 0.8116254, 0.8138121) && Between(FAST, 11520, 0.6587357, 0.6622902)
    requires Between(FAST, 23040, 0.4339327, 0.4386284) && Between(FAST, 92160, 0.0354559, 0.0370158)
    requires Between(FAST, 184320, 0.0012571, 0.0013702)
    ensures Between(FAST, 28800, 0.3521, 1.0) && Between(FAST, 21600, 0.457, 1.0) && Between(FAST, 17280, 0.5346, 1.0)
    ensures Between(FAST, 285120, 0.0, 0.0000373)
  {
    hide Pow, Between;
    Sum(FAST, 23040, 0.4339327, 0.4386284, 5760, 0.8116254, 0.8138121, 0.3521, 1.0);
    Sum(FAST, 11520, 0.6587357, 0.6622902, 5760, 0.8116254, 0.8138121, 0.5346, 0.539);
    Sum(FAST, 17280, 0.5346, 0.539, 2880, 0.9009026, 0.9021153, 0.4816, 1.0);
    Sum(FAST, 20160, 0.4816, 1.0, 1440, 0.9491589, 0.9497975, 0.457, 1.0);
    Sum(FAST, 17280, 0.5346, 0.539, 0, 1.0, 1.0, 0.5346, 1.0);
    Sum(FAST, 184320, 0.0012571, 0.0013702, 92160, 0.0354559, 0.0370158, 0.0, 0.0000508);
    Sum(FAST, 5760, 0.8116254, 0.8138121, 2880, 0.9009026, 0.9021153, 0.0, 0.7342);
    Sum(FAST, 276480, 0.0, 0.0000508, 8640, 0.0, 0.7342, 0.0, 0.0000373);
  }

  lemma Sum(q: real, m: nat, lo: real, hi: real, n: nat, low: real, high: real, least: real, most: real)
    requires Between(q, m, lo, hi) && (Between(q, n, low, high) || (n == 0 && low == high == 1.0))
    requires 0.0 <= least <= lo * low && hi * high <= most
    ensures Between(q, m + n, least, most)
  {
    assert n == 0 ==> Pow(q, n) == 1.0;
    hide Pow;
    PowerProduct(q, m, lo, hi, n, low, high);
  }

  lemma SlowPowers()
    ensures Between(SLOW, 16875, 0.7824, 1.0) && Between(SLOW, 276000, 0.0, 0.01849)
  {
    hide Pow, Between;
    FirstBlock(0.0000145, 375, 0.9945625, 0.994592);
    Twice(SLOW, 375, 0.9945625, 0.994592, 0.9891545, 0.9892133);
    Twice(SLOW, 750, 0.9891545, 0.9892133, 0.9784266, 0.978543);
    Twice(SLOW, 1500, 0.9784266, 0.978543, 0.9573186, 0.9575465);
    Twice(SLOW, 3000, 0.9573186, 0.9575465, 0.9164589, 0.9168953);
    Twice(SLOW, 6000, 0.9164589, 0.9168953, 0.8398969, 0.840697);
    Twice(SLOW, 12000, 0.8398969, 0.840697, 0.7054268, 0.7067715);
    Twice(SLOW, 24000, 0.7054268, 0.7067715, 0.4976269, 0.499526);
    Twice(SLOW, 48000, 0.4976269, 0.499526, 0.2476325, 0.2495263);
    Twice(SLOW, 96000, 0.2476325, 0.2495263, 0.0613218, 0.0622634);
    Sum(SLOW, 12000, 0.8398969, 0.840697, 3000, 0.9573186, 0.9575465, 0.80404, 1.0);
    Sum(SLOW, 15000, 0.80404, 1.0, 1500, 0.9784266, 0.978543, 0.78669, 1.0);
    Sum(SLOW, 16500, 0.78669, 1.0, 375, 0.9945625, 0.994592, 0.7824, 1.0);
    Sum(SLOW, 192000, 0.0613218, 0.0622634, 48000, 0.4976269, 0.499526, 0.0, 0.031103);
    Sum(SLOW, 240000, 0.0, 0.031103, 24000, 0.7054268, 0.7067715, 0.0, 0.021983);
    Sum(SLOW, 264000, 0.0, 0.021983, 12000, 0.8398969, 0.840697, 0.0, 0.01849);
  }
}
