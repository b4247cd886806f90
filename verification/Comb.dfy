/** Freeverb's comb and allpass filters: a delay line in a ring, fed back through a low-pass. */
module Comb {
  import opened Reals

  /** The ring as a delay line: the cells in the order they will be read, and the low-pass. */
  datatype Delay = Delay(cells: seq<real>, store: real)

  /** The low-pass, one step from `y` toward `x`. */
  function Soft(x: real, y: real, d: real): real {
    x * (1.0 - d) + y * d
  }

  function Back(store: real, feedback: real): real {
    store * feedback
  }

  function Next(s: Delay, input: real, feedback: real, damping: real): (t: Delay)
    requires s.cells != []
    ensures |t.cells| == |s.cells|
  {
    var store := Soft(s.cells[0], s.store, damping);
    Delay(s.cells[1..] + [input + Back(store, feedback)], store)
  }

  /** Everything held is within `bound`. */
  predicate Within(cells: seq<real>, bound: real) {
    forall i :: 0 <= i < |cells| ==> Mag(cells[i]) <= bound
  }

  predicate Bounded(s: Delay, bound: real) {
    Within(s.cells, bound) && Mag(s.store) <= bound
  }

  /** A ring read from `pos` on. */
  function FromPos(b: seq<real>, pos: nat): (cells: seq<real>)
    requires pos < |b|
    ensures |cells| == |b| && cells[0] == b[pos]
  {
    b[pos..] + b[..pos]
  }

  /** Writing at `pos` and stepping on is shifting the delay line. */
  lemma Turn(b: seq<real>, pos: nat, x: real)
    requires pos < |b|
    ensures FromPos(b[pos := x], if pos + 1 >= |b| then 0 else pos + 1) == FromPos(b, pos)[1..] + [x]
  {
  }

  class Filter {
    const buf: array<real>
    var pos: nat
    var store: real

    ghost predicate Valid()
      reads this
    {
      0 < buf.Length && pos < buf.Length
    }

    ghost function Line(): (s: Delay)
      requires Valid()
      reads this, buf
      ensures |s.cells| == buf.Length
    {
      Delay(FromPos(buf[..], pos), store)
    }

    constructor (len: nat)
      requires 0 < len
      ensures Valid() && fresh(buf) && buf.Length == len && Bounded(Line(), 0.0)
    {
      buf := new real[len](_ => 0.0);
      pos, store := 0, 0.0;
    }

    method Comb(input: real, feedback: real, damping: real) returns (out: real)
      requires Valid()
      modifies this, buf
      ensures Valid() && Line() == Next(old(Line()), input, feedback, damping)
      ensures out == old(Line()).cells[0]
    {
      hide Soft, Back;
      Turn(buf[..], pos, input + Back(Soft(buf[pos], store, damping), feedback));
      out := buf[pos];
      store := Soft(out, store, damping);
      buf[pos] := input + Back(store, feedback);
      assert buf[..] == old(buf[..])[pos := input + Back(store, feedback)];
      pos := pos + 1;
      if pos >= buf.Length {
        pos := 0;
      }
    }

    /** The allpass: what is held, less what comes in. */
    method Allpass(input: real) returns (out: real)
      requires Valid()
      modifies this, buf
      ensures Valid() && out == old(Line()).cells[0] - input
      ensures Line() == Delay(old(Line()).cells[1..] + [input + old(Line()).cells[0] * 0.5], old(store))
    {
      Turn(buf[..], pos, input + buf[pos] * 0.5);
      var held := buf[pos];
      buf[pos] := input + held * 0.5;
      assert buf[..] == old(buf[..])[pos := input + held * 0.5];
      pos := pos + 1;
      if pos >= buf.Length {
        pos := 0;
      }
      out := held - input;
    }
  }

  // ---- never more than the room can hold ----

  lemma SoftBounded(x: real, y: real, d: real, bound: real)
    requires 0.0 <= d <= 1.0 && Mag(x) <= bound && Mag(y) <= bound
    ensures Mag(Soft(x, y, d)) <= bound
  {
    Mean(1.0 - d, x, y, bound);
    assert y + (1.0 - d) * (x - y) == Soft(x, y, d);
  }

  lemma BackBounded(store: real, feedback: real, bound: real)
    requires 0.0 <= feedback && Mag(store) <= bound
    ensures Mag(Back(store, feedback)) <= Back(bound, feedback)
  {
    Product(feedback, store, bound);
    assert Back(store, feedback) == feedback * store;
  }

  /** Inputs within `m` keep a comb within any bound that the feedback leaves room for. */
  lemma StaysBounded(s: Delay, input: real, feedback: real, damping: real, m: real, bound: real)
    requires s.cells != [] && 0.0 <= damping <= 1.0 && 0.0 <= feedback
    requires Mag(input) <= m && m + Back(bound, feedback) <= bound && Bounded(s, bound)
    ensures Bounded(Next(s, input, feedback, damping), bound)
    ensures Mag(s.cells[0]) <= bound
  {
    hide Soft, Back, Mag;
    var store := Soft(s.cells[0], s.store, damping);
    SoftBounded(s.cells[0], s.store, damping, bound);
    BackBounded(store, feedback, bound);
    Triangle(input, Back(store, feedback), m, Back(bound, feedback));
  }

  /** An allpass with inputs within `m` holds no more than twice that, and gives out no more than three times. */
  lemma AllpassBounded(cells: seq<real>, input: real, m: real)
    requires cells != [] && Within(cells, 2.0 * m) && Mag(input) <= m
    ensures Within(cells[1..] + [input + cells[0] * 0.5], 2.0 * m)
    ensures Mag(cells[0] - input) <= 3.0 * m
  {
  }

  // ---- silence ----

  /** `n` samples of silence. */
  function Quiet(s: Delay, n: nat, feedback: real, damping: real): (t: Delay)
    requires s.cells != []
    ensures |t.cells| == |s.cells|
  {
    if n == 0 then s else Next(Quiet(s, n - 1, feedback, damping), 0.0, feedback, damping)
  }

  lemma {:induction false} QuietTwice(s: Delay, m: nat, n: nat, feedback: real, damping: real)
    requires s.cells != []
    ensures Quiet(s, m + n, feedback, damping) == Quiet(Quiet(s, m, feedback, damping), n, feedback, damping)
  {
    if n > 0 {
      QuietTwice(s, m, n - 1, feedback, damping);
    }
  }

  /** The first pass: each cell read comes back shrunk by the feedback. */
  lemma {:induction false} FirstPass(s: Delay, k: nat, feedback: real, damping: real, a: real)
    requires s.cells != [] && k <= |s.cells| && 0.0 <= damping <= 1.0 && 0.0 <= feedback
    requires Bounded(s, a)
    ensures var t := Quiet(s, k, feedback, damping);
      && t.cells[..|t.cells| - k] == s.cells[k..]
      && Within(t.cells[|t.cells| - k..], Back(a, feedback)) && Mag(t.store) <= a
  {
    if k > 0 {
      hide Soft, Back, Mag, Quiet, Within;
      var u := Quiet(s, k - 1, feedback, damping);
      FirstPass(s, k - 1, feedback, damping, a);
      QuietNext(s, k - 1, feedback, damping);
      assert u.cells[0] == u.cells[..|u.cells| - (k - 1)][0];
      FirstStep(u, s.cells[k - 1], feedback, damping, a);
      var t := Next(u, 0.0, feedback, damping);
      ShiftedCells(s.cells, u.cells, k - 1, t.cells[|t.cells| - 1], Back(a, feedback));
    }
  }

  lemma ShiftedCells(first: seq<real>, cells: seq<real>, k: nat, x: real, bound: real)
    requires k < |first| == |cells| && cells[..|cells| - k] == first[k..]
    requires Within(cells[|cells| - k..], bound) && Mag(x) <= bound
    ensures var t := cells[1..] + [x];
      t[..|t| - (k + 1)] == first[k + 1..] && Within(t[|t| - (k + 1)..], bound)
  {
    var t := cells[1..] + [x];
    assert t[|t| - (k + 1)..] == cells[|cells| - k..] + [x];
    assert t[..|t| - (k + 1)] == cells[..|cells| - k][1..];
  }

  lemma QuietNext(s: Delay, n: nat, feedback: real, damping: real)
    requires s.cells != []
    ensures Quiet(s, n + 1, feedback, damping) == Next(Quiet(s, n, feedback, damping), 0.0, feedback, damping)
    ensures Quiet(s, 0, feedback, damping) == s
  {
  }

  lemma FirstStep(u: Delay, x: real, feedback: real, damping: real, a: real)
    requires u.cells != [] && u.cells[0] == x && 0.0 <= damping <= 1.0 && 0.0 <= feedback && Mag(x) <= a
    requires Mag(u.store) <= a
    ensures var t := Next(u, 0.0, feedback, damping);
      Mag(t.store) <= a && Mag(t.cells[|t.cells| - 1]) <= Back(a, feedback)
  {
    hide Soft, Back, Mag;
    SoftBounded(x, u.store, damping, a);
    BackBounded(Soft(x, u.store, damping), feedback, a);
  }

  /** How far the low-pass can be above the cells after `k` samples of the second pass. */
  function Fades(low: real, high: real, damping: real, k: nat): real {
    low + (high - low) * Pow(damping, k)
  }

  /** The second pass: the low-pass forgets what it held, by the damping at each sample. */
  lemma {:induction false} SecondPass(s: Delay, k: nat, feedback: real, damping: real, a: real)
    requires s.cells != [] && 0.0 <= damping <= 1.0 && 0.0 <= feedback <= 1.0 && 0.0 <= a
    requires Within(s.cells, Back(a, feedback)) && Mag(s.store) <= a
    ensures var t := Quiet(s, k, feedback, damping);
      Within(t.cells, Back(a, feedback)) && Mag(t.store) <= Fades(Back(a, feedback), a, damping, k)
  {
    hide Soft, Back, Mag, Quiet, Fades;
    QuietNext(s, 0, feedback, damping);
    if k == 0 {
      FadesFromTop(Back(a, feedback), a, damping);
    } else {
      var u := Quiet(s, k - 1, feedback, damping);
      SecondPass(s, k - 1, feedback, damping, a);
      QuietNext(s, k - 1, feedback, damping);
      SoftFades(u.cells[0], u.store, damping, Back(a, feedback), a, k - 1);
      FadesBelow(feedback, a, damping, k);
      BackBounded(Soft(u.cells[0], u.store, damping), feedback, a);
    }
  }

  lemma FadesFromTop(low: real, high: real, d: real)
    ensures Fades(low, high, d, 0) == high
  {
  }

  lemma SoftFades(x: real, y: real, d: real, low: real, high: real, k: nat)
    requires 0.0 <= d <= 1.0 && Mag(x) <= low && Mag(y) <= Fades(low, high, d, k)
    ensures Mag(Soft(x, y, d)) <= Fades(low, high, d, k + 1)
  {
    var f := Fades(low, high, d, k);
    hide Fades, Soft, Mag;
    Product(1.0 - d, x, low);
    Product(d, y, f);
    Triangle((1.0 - d) * x, d * y, (1.0 - d) * low, d * f);
    SoftIs(x, y, d);
    FadesNext(low, high, d, k);
  }

  lemma SoftIs(x: real, y: real, d: real)
    ensures Soft(x, y, d) == (1.0 - d) * x + d * y
  {
  }

  lemma FadesNext(low: real, high: real, d: real, k: nat)
    ensures Fades(low, high, d, k + 1) == (1.0 - d) * low + d * Fades(low, high, d, k)
  {
    var g, p := high - low, Pow(d, k);
    assert Pow(d, k + 1) == d * p;
    Reorder(g, d, p);
    Spread(d, low, g * p);
  }

  lemma Reorder(g: real, d: real, p: real)
    ensures g * (d * p) == d * (g * p)
  {
  }

  lemma Spread(d: real, x: real, y: real)
    ensures (1.0 - d) * x + d * (x + y) == x + d * y
  {
  }

  lemma FadesBelow(feedback: real, a: real, d: real, k: nat)
    requires 0.0 <= d <= 1.0 && 0.0 <= feedback <= 1.0 && 0.0 <= a
    ensures Back(a, feedback) <= Fades(Back(a, feedback), a, d, k)
    ensures Fades(Back(a, feedback), a, d, k) <= a
  {
    PowRange(d, k);
    var gap, p := a - a * feedback, Pow(d, k);
    NonNegative(a, 1.0 - feedback);
    NonNegative(gap, p);
    NonNegative(gap, 1.0 - p);
  }

  /** Two passes of silence shrink everything held by this factor at least. */
  function Shrink(feedback: real, damping: real, len: nat): real {
    feedback + (1.0 - feedback) * Pow(damping, len)
  }

  function Of(p: real, a: real): real {
    p * a
  }

  lemma ShrinkIsFade(feedback: real, damping: real, len: nat, a: real)
    ensures Fades(Back(a, feedback), a, damping, len) == Of(Shrink(feedback, damping, len), a)
  {
    Factor(a, feedback, Pow(damping, len));
  }

  lemma Factor(a: real, f: real, p: real)
    ensures a * f + (a - a * f) * p == (f + (1.0 - f) * p) * a
  {
    var af, fp, ap := a * f, f * p, a * p;
    assert (a - af) * p == ap - af * p;
    assert (f + p - fp) * a == af + ap - fp * a;
    Triple(a, f, p);
    assert (1.0 - f) * p == p - fp;
  }

  lemma Triple(a: real, f: real, p: real)
    ensures a * f * p == f * p * a
  {
  }

  lemma ShrinkBelowOne(feedback: real, damping: real, len: nat)
    requires 0.0 <= damping < 1.0 && 0.0 <= feedback < 1.0 && 0 < len
    ensures 0.0 <= Shrink(feedback, damping, len)
    ensures Shrink(feedback, damping, len) < 1.0
  {
    PowDecreases(damping, 1, len);
    PowRange(damping, len);
    assert Pow(damping, 1) == damping * Pow(damping, 0);
    ConvexBelowOne(feedback, 1.0 - feedback, Pow(damping, len));
  }

  lemma Remainder(g: real, p: real)
    ensures g * (1.0 - p) == g - g * p
  {
  }

  lemma ConvexBelowOne(f: real, g: real, p: real)
    requires 0.0 <= f && 0.0 < g && f + g == 1.0 && 0.0 <= p < 1.0
    ensures 0.0 <= f + g * p
    ensures f + g * p < 1.0
  {
    NonNegative(g, p);
    Positive(g, 1.0 - p);
    Remainder(g, p);
  }

  lemma TwoPasses(s: Delay, feedback: real, damping: real, a: real)
    requires s.cells != [] && 0.0 <= damping <= 1.0 && 0.0 <= feedback <= 1.0 && Bounded(s, a)
    ensures Bounded(Quiet(s, 2 * |s.cells|, feedback, damping), Of(Shrink(feedback, damping, |s.cells|), a))
  {
    hide Back, Fades, Shrink, Quiet, Mag, Of, Within, Bounded;
    var n := |s.cells|;
    var t := Quiet(s, n, feedback, damping);
    FirstPass(s, n, feedback, damping, a);
    assert t.cells[|t.cells| - n..] == t.cells;
    NotNegative(s, a);
    SecondPass(t, n, feedback, damping, a);
    QuietTwice(s, n, n, feedback, damping);
    FadesBelow(feedback, a, damping, n);
    ShrinkIsFade(feedback, damping, n, a);
    var u := Quiet(t, n, feedback, damping);
    BoundedMore(u, Back(a, feedback), Fades(Back(a, feedback), a, damping, n));
  }

  lemma BoundedMore(s: Delay, a: real, b: real)
    requires Within(s.cells, a) && a <= b && Mag(s.store) <= b
    ensures Bounded(s, b)
  {
  }

  lemma NotNegative(s: Delay, a: real)
    requires Bounded(s, a)
    ensures 0.0 <= a
  {
  }

  /** The samples of `k` times two passes. */
  function Passes(k: nat, len: nat): nat {
    if k == 0 then 0 else Passes(k - 1, len) + 2 * len
  }

  lemma {:induction false} ManyPasses(s: Delay, k: nat, feedback: real, damping: real, a: real)
    requires s.cells != [] && 0.0 <= damping <= 1.0 && 0.0 <= feedback <= 1.0 && Bounded(s, a)
    ensures Bounded(Quiet(s, Passes(k, |s.cells|), feedback, damping),
                    Of(Pow(Shrink(feedback, damping, |s.cells|), k), a))
  {
    hide Shrink, Bounded, Quiet, Of;
    var q, n := Shrink(feedback, damping, |s.cells|), |s.cells|;
    if k == 0 {
      QuietNext(s, 0, feedback, damping);
      OfNext(q, 0, a);
    } else {
      ManyPasses(s, k - 1, feedback, damping, a);
      TwoPasses(Quiet(s, Passes(k - 1, n), feedback, damping), feedback, damping, Of(Pow(q, k - 1), a));
      QuietTwice(s, Passes(k - 1, n), 2 * n, feedback, damping);
      OfNext(q, k - 1, a);
    }
  }

  lemma OfNext(q: real, k: nat, a: real)
    ensures Of(q, Of(Pow(q, k), a)) == Of(Pow(q, k + 1), a)
    ensures Of(Pow(q, 0), a) == a
  {
    assert q * (Pow(q, k) * a) == q * Pow(q, k) * a;
  }

  lemma {:induction false} StaysQuiet(s: Delay, k: nat, feedback: real, damping: real, a: real)
    requires s.cells != [] && 0.0 <= damping <= 1.0 && 0.0 <= feedback <= 1.0 && Bounded(s, a)
    ensures Bounded(Quiet(s, k, feedback, damping), a)
  {
    if k > 0 {
      hide Back, Next, Bounded;
      StaysQuiet(s, k - 1, feedback, damping, a);
      NotNegative(s, a);
      BackBelow(a, feedback);
      StaysBounded(Quiet(s, k - 1, feedback, damping), 0.0, feedback, damping, 0.0, a);
    }
  }

  lemma BackBelow(a: real, feedback: real)
    requires 0.0 <= a && 0.0 <= feedback <= 1.0
    ensures 0.0 + Back(a, feedback) <= a
  {
    assert a * (1.0 - feedback) >= 0.0;
  }

  /** In silence a comb falls below any threshold, and stays there. */
  lemma SilenceDiesAway(s: Delay, feedback: real, damping: real, a: real, eps: real) returns (n: nat)
    requires s.cells != [] && 0.0 <= damping < 1.0 && 0.0 <= feedback < 1.0 && Bounded(s, a) && 0.0 < eps
    ensures forall m :: n <= m ==> Bounded(Quiet(s, m, feedback, damping), eps)
  {
    hide Shrink, Bounded, Quiet;
    NotNegative(s, a);
    ShrinkBelowOne(feedback, damping, |s.cells|);
    var q := Shrink(feedback, damping, |s.cells|);
    var k := Vanishes(q, a, eps);
    n := Passes(k, |s.cells|);
    ManyPasses(s, k, feedback, damping, a);
    assert Of(Pow(q, k), a) < eps;
    Loosened(Quiet(s, n, feedback, damping), Of(Pow(q, k), a), eps);
    forall m | n <= m
      ensures Bounded(Quiet(s, m, feedback, damping), eps)
    {
      QuietTwice(s, n, m - n, feedback, damping);
      StaysQuiet(Quiet(s, n, feedback, damping), m - n, feedback, damping, eps);
    }
  }

  lemma Loosened(s: Delay, a: real, b: real)
    requires Bounded(s, a) && a <= b
    ensures Bounded(s, b)
  {
  }
}
