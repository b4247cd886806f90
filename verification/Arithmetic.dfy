/** Facts about division, products and cut texts that the other modules share. */
module Arithmetic {

  function Min(a: int, b: int): (r: int)
    ensures r <= a && r <= b && (r == a || r == b)
  {
    if a <= b then a else b
  }

  /** What fits in `n` characters. */
  function Cut(s: string, n: nat): (r: string)
    ensures r <= s && |r| == Min(|s|, n)
  {
    if |s| <= n then s else s[..n]
  }

  lemma DivModUnique(k: int, j: int, s: int)
    requires 0 <= j < s
    ensures (k * s + j) / s == k && (k * s + j) % s == j
  {
    var q, r := (k * s + j) / s, (k * s + j) % s;
    assert q * s + r == k * s + j;
    assert (q - k) * s == j - r;
    if q > k {
      MulMonotone(1, q - k, s);
    } else if q < k {
      MulMonotone(1, k - q, s);
    }
  }

  lemma MulMonotone(a: int, b: int, s: int)
    requires a <= b && 0 <= s
    ensures a * s <= b * s
  {
    assert 0 <= (b - a) * s;
  }

  lemma MulStrict(a: int, b: int, s: int)
    requires a * s < b * s && 0 <= s
    ensures a < b
  {
    if b <= a {
      MulMonotone(b, a, s);
    }
  }

  /** The quotient of a number below `n * s` is an index below `n`. */
  lemma DivBound(p: int, n: int, s: int)
    requires 0 < s && 0 <= p
    ensures p == p / s * s + p % s && 0 <= p % s < s && 0 <= p / s
    ensures p < n * s <==> p / s < n
  {
    if p / s < n {
      MulMonotone(p / s + 1, n, s);
    } else {
      MulMonotone(n, p / s, s);
    }
  }

  lemma ShiftDiv(x: nat, b: nat, s: nat)
    requires 0 < s
    ensures 0 <= b * s && (x + b * s) / s == x / s + b && (x + b * s) % s == x % s
  {
    assert x + b * s == (x / s + b) * s + x % s by { assert (x / s + b) * s == x / s * s + b * s; }
    DivModUnique(x / s + b, x % s, s);
  }

  lemma DivMonotone(a: nat, b: nat, s: nat)
    requires 0 < s && a <= b
    ensures a / s <= b / s
  {
    if b / s < a / s {
      MulMonotone(b / s + 1, a / s, s);
    }
  }

  /** `x / s == k` pinned down by its two bounds. */
  lemma DivIs(x: nat, k: int, s: nat)
    requires 0 < s && k * s <= x < k * s + s
    ensures x / s == k && x % s == x - k * s
  {
    DivModUnique(k, x - k * s, s);
  }
}
