/** A crew member's rhythm: `h` hits spread evenly over a bar of `n` steps, turned. */
module Rhythm {
  import opened Arithmetic

  /** Step `i` of the bar, repeating from bar to bar. */
  predicate Hit(i: nat, h: nat, turn: nat, n: nat)
    requires 0 < n
  {
    (i + turn) % n * h % n < h
  }

  function Hits(from: nat, w: nat, h: nat, turn: nat, n: nat): (c: nat)
    requires 0 < n
    ensures c <= w
  {
    if w == 0 then 0 else Hits(from, w - 1, h, turn, n) + (if Hit(from + w - 1, h, turn, n) then 1 else 0)
  }

  /** How many multiples of `n` the first `j` steps, `h` apart, have passed. */
  function Passed(j: int, h: nat, n: nat): int
    requires 0 < n
  {
    j * h / n
  }

  lemma FloorIs(x: int, q: int, n: int)
    requires 0 < n && q * n <= x < q * n + n
    ensures x / n == q && x % n == x - q * n
  {
    DivModUnique(q, x - q * n, n);
  }

  lemma WrapFactor(j: nat, h: nat, n: nat)
    requires 0 < n
    ensures j % n * h % n == j * h % n
  {
    var q, r := j / n, j % n;
    NotNegative(q, h);
    NotNegative(r, h);
    Regroup(j, q, n, r, h);
    ShiftDiv(r * h, q * h, n);
  }

  lemma NotNegative(a: nat, b: nat)
    ensures 0 <= a * b
  {
  }

  lemma Regroup(j: int, q: int, n: int, r: int, h: int)
    requires j == q * n + r
    ensures j * h == r * h + (q * h) * n
  {
    assert (q * n + r) * h == r * h + (q * h) * n;
  }

  /** A hit is a step that passes a multiple of `n`. */
  lemma HitPasses(i: nat, h: nat, turn: nat, n: nat)
    requires 0 < h <= n
    ensures Passed(i + turn, h, n) - Passed(i + turn - 1, h, n) == if Hit(i, h, turn, n) then 1 else 0
  {
    var j := i + turn;
    WrapFactor(j, h, n);
    StepDown(j * h, h, n);
    assert (j - 1) * h == j * h - h;
  }

  lemma StepDown(x: int, h: nat, n: nat)
    requires 0 < h <= n
    ensures x / n - (x - h) / n == if x % n < h then 1 else 0
  {
    var q := x / n;
    assert x == q * n + x % n;
    if x % n < h {
      assert (q - 1) * n == q * n - n;
      FloorIs(x - h, q - 1, n);
    } else {
      FloorIs(x - h, q, n);
    }
  }

  lemma {:induction false} HitsArePassed(from: nat, w: nat, h: nat, turn: nat, n: nat)
    requires 0 < h <= n
    ensures Hits(from, w, h, turn, n) == Passed(from + turn + w - 1, h, n) - Passed(from + turn - 1, h, n)
  {
    if w > 0 {
      hide Passed, Hit;
      HitsArePassed(from, w - 1, h, turn, n);
      HitPasses(from + w - 1, h, turn, n);
    }
  }

  /** Any window of `w` steps, wherever it starts, holds `w * h / n` hits rounded down or up. */
  lemma EvenlySpread(from: nat, w: nat, h: nat, turn: nat, n: nat)
    requires 0 < h <= n
    ensures 0 <= w * h
    ensures Hits(from, w, h, turn, n) == w * h / n || (w * h % n != 0 && Hits(from, w, h, turn, n) == w * h / n + 1)
  {
    HitsArePassed(from, w, h, turn, n);
    var x := (from + turn - 1) * h;
    assert (from + turn + w - 1) * h == x + w * h by { assert (from + turn - 1 + w) * h == x + w * h; }
    FloorSum(x, w * h, n);
  }

  lemma FloorSum(x: int, y: int, n: int)
    requires 0 < n
    ensures (x + y) / n - x / n == y / n || (y % n != 0 && (x + y) / n - x / n == y / n + 1)
  {
    var p, q := x / n, y / n;
    assert x + y == (p + q) * n + (x % n + y % n) by { assert (p + q) * n == p * n + q * n; }
    if x % n + y % n < n {
      FloorIs(x + y, p + q, n);
    } else {
      assert (p + q + 1) * n == (p + q) * n + n;
      FloorIs(x + y, p + q + 1, n);
    }
  }

  lemma Commute(a: int, b: int)
    ensures a * b == b * a
  {
  }

  /** A whole bar holds exactly `h`, wherever it is turned. */
  lemma BarHasAllHits(from: nat, h: nat, turn: nat, n: nat)
    requires 0 < h <= n
    ensures Hits(from, n, h, turn, n) == h
  {
    hide Hits;
    EvenlySpread(from, n, h, turn, n);
    Commute(n, h);
    DivModUnique(h, 0, n);
  }
}
