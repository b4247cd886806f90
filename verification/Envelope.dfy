/**
 How the parts of a room die away: every line's cells under an envelope that falls
 with each sample, over the floor that what still comes in keeps up.
*/
module Envelope {
  import opened Reals
  import opened Comb
  import opened Reverb

  /** A low-pass lags this far behind the cells it reads. */
  const LAG := 1.001

  // ---- envelopes ----

  function Tail(top: real, r: real, i: nat): real {
    top * Pow(r, i)
  }

  function Down(top: real, r: real): real {
    top * r
  }

  /** The cell `i` places from the oldest is within `top` fallen `i` times, over a floor `w`. */
  predicate Fading(cells: seq<real>, top: real, r: real, w: real) {
    forall i :: 0 <= i < |cells| ==> Mag(cells[i]) <= Tail(top, r, i) + w
  }

  lemma TailNext(top: real, r: real, i: nat)
    ensures Tail(top, r, i + 1) == Tail(Down(top, r), r, i)
    ensures Tail(top, r, 0) == top
  {
    Regroup(top, r, Pow(r, i));
  }

  /** What is written next falls in line behind the cells that shift up. */
  lemma FadingNext(cells: seq<real>, x: real, top: real, r: real, w: real)
    requires cells != [] && Fading(cells, top, r, w) && Mag(x) <= Tail(top, r, |cells|) + w
    ensures Fading(cells[1..] + [x], Down(top, r), r, w)
    ensures Mag(cells[0]) <= top + w
  {
    hide Mag, Tail, Down;
    TailNext(top, r, 0);
    var t := cells[1..] + [x];
    forall i | 0 <= i < |t|
      ensures Mag(t[i]) <= Tail(Down(top, r), r, i) + w
    {
      TailNext(top, r, i);
    }
  }

  lemma TailFalls(top: real, r: real, i: nat, n: nat)
    requires 0.0 <= top && 0.0 <= r <= 1.0 && i <= n
    ensures Tail(top, r, n) <= Tail(top, r, i)
    ensures Tail(top, r, i) <= top
  {
    PowRange(r, i);
    PowDecreases(r, i, n);
    NonNegative(top, Pow(r, i) - Pow(r, n));
    NonNegative(top, 1.0 - Pow(r, i));
  }

  lemma FadingWithin(cells: seq<real>, top: real, r: real, w: real)
    requires Fading(cells, top, r, w) && 0.0 <= top && 0.0 <= r <= 1.0
    ensures Within(cells, top + w)
  {
    hide Mag, Tail;
    forall i | 0 <= i < |cells|
      ensures Mag(cells[i]) <= top + w
    {
      TailFalls(top, r, i, i);
    }
  }

  /** Cells within a bound are under any envelope that ends above it. */
  lemma StartFading(cells: seq<real>, bound: real, top: real, r: real, w: real)
    requires Within(cells, bound) && 0.0 <= top && 0.0 <= r <= 1.0 && 0.0 <= w && bound <= Tail(top, r, |cells|)
    ensures Fading(cells, top, r, w)
  {
    hide Mag, Tail;
    forall i | 0 <= i < |cells|
      ensures Mag(cells[i]) <= Tail(top, r, i) + w
    {
      TailFalls(top, r, i, |cells|);
    }
  }

  // ---- a line with a low-pass in its feedback ----

  /** How slowly an envelope may fall. */
  predicate Slow(r: real) {
    0.99996 <= r <= 1.0
  }

  lemma StoreFades(x: real, store: real, d: real, top: real, r: real, w: real)
    requires 0.0 <= d <= 0.75 && Slow(r) && 0.0 <= top
    requires Mag(x) <= top + w && Mag(store) <= LAG * top + w
    ensures Mag(Soft(x, store, d)) <= LAG * Down(top, r) + w
  {
    Product(1.0 - d, x, top + w);
    Product(d, store, LAG * top + w);
    Triangle((1.0 - d) * x, d * store, (1.0 - d) * (top + w), d * (LAG * top + w));
    SoftIs(x, store, d);
    LagCatchesUp(d, top, r, w);
  }

  lemma LagCatchesUp(d: real, top: real, r: real, w: real)
    requires 0.0 <= d <= 0.75 && Slow(r) && 0.0 <= top
    ensures (1.0 - d) * (top + w) + d * (LAG * top + w) <= LAG * Down(top, r) + w
  {
    assert (1.0 - d) * (top + w) + d * (LAG * top + w) == top + 0.001 * (d * top) + w;
    NonNegative(0.75 - d, top);
    NonNegative(r - 0.99996, top);
  }

  function Fold(fb: real, x: real): real {
    fb * x
  }

  /** Room in an envelope for what is fed back and what comes in. */
  predicate Leaves(keep: real, fb: real, top: real, u: real) {
    u + Fold(fb, LAG * top) <= keep * top
  }

  predicate Holds(fb: real, w: real, v: real) {
    v + Fold(fb, w) <= w
  }

  lemma WriteFades(cells: seq<real>, input: real, store: real, fb: real, top: real, r: real, w: real, keep: real,
                   u: real, v: real)
    requires cells != [] && Fading(cells, top, r, w) && Slow(r) && 0.0 <= top && 0.0 <= fb
    requires keep <= Pow(r, |cells|) && Leaves(keep, fb, top, u) && Holds(fb, w, v)
    requires Mag(store) <= LAG * Down(top, r) + w && Mag(input) <= u + v
    ensures Fading(cells[1..] + [input + Back(store, fb)], Down(top, r), r, w)
    ensures Mag(cells[0]) <= top + w
  {
    hide Fading, Mag, Slow, Fold, Pow, Leaves, Holds, Tail, Down;
    Fed(store, fb, top, r, w);
    FoldedFits(fb, top, r, w, keep, u, v, |cells|);
    Triangle(input, Back(store, fb), u + v, Fold(fb, LAG * top) + Fold(fb, w));
    FadingNext(cells, input + Back(store, fb), top, r, w);
  }

  lemma FoldedFits(fb: real, top: real, r: real, w: real, keep: real, u: real, v: real, n: nat)
    requires 0.0 <= top && keep <= Pow(r, n) && Leaves(keep, fb, top, u) && Holds(fb, w, v)
    ensures u + v + (Fold(fb, LAG * top) + Fold(fb, w)) <= Tail(top, r, n) + w
  {
    hide Fold, Pow;
    Kept(top, keep, Pow(r, n));
  }

  lemma Fed(store: real, fb: real, top: real, r: real, w: real)
    requires Slow(r) && 0.0 <= top && 0.0 <= fb && Mag(store) <= LAG * Down(top, r) + w
    ensures Mag(Back(store, fb)) <= Fold(fb, LAG * top) + Fold(fb, w)
  {
    NonNegative(top, 1.0 - r);
    BackBounded(store, fb, LAG * top + w);
    assert Back(LAG * top + w, fb) == fb * (LAG * top) + fb * w;
  }

  lemma Kept(top: real, keep: real, p: real)
    requires 0.0 <= top && keep <= p
    ensures keep * top <= top * p
  {
    NonNegative(top, p - keep);
  }

  // ---- one side of the reverb ----

  const COMB := 0.28

  /** What comes to allpass `k` of the envelope. */
  function Gain(k: nat): real {
    if k == 0 then 2.24
    else if k == 1 then 6.944
    else if k == 2 then 21.5264
    else if k == 3 then 66.73184
    else 206.868704
  }

  lemma GainNext(k: nat)
    requires k < ALLS
    ensures Gain(k + 1) == 3.1 * Gain(k) && 0.0 < Gain(k)
  {
  }

  /** The lengths the room is built with. */
  predicate Lengths(s: Side) {
    && (forall i :: 0 <= i < |s.combs| ==> |s.combs[i].cells| <= 1785)
    && (forall i :: 0 <= i < |s.alls| ==> |s.alls[i].cells| <= 630)
  }

  predicate CombFades(s: Delay, top: real, r: real, e: real) {
    Fading(s.cells, COMB * top, r, CombBound(e)) && Mag(s.store) <= LAG * (COMB * top) + CombBound(e)
  }

  function Into(k: nat, top: real): real {
    Gain(k) * top
  }

  function AllTop(k: nat, top: real): real {
    2.1 * Into(k, top)
  }

  predicate SideFades(s: Side, top: real, r: real, e: real) {
    && Formed(s) && Lengths(s)
    && (forall i :: 0 <= i < COMBS ==> CombFades(s.combs[i], top, r, e))
    && (forall i :: 0 <= i < ALLS ==> Fading(s.alls[i].cells, AllTop(i, top), r, 2.0 * AfterAllpass(e, i)))
  }

  /** A rate slow enough for the reverb: a comb and an allpass keep this much over their length. */
  predicate Lasts(r: real) {
    Slow(r) && 0.935 <= Pow(r, 1785) && 0.977 <= Pow(r, 630)
  }

  lemma LastsLonger(r: real, n: nat)
    requires Lasts(r)
    ensures n <= 1785 ==> 0.935 <= Pow(r, n)
    ensures n <= 630 ==> 0.977 <= Pow(r, n)
  {
    if n <= 1785 {
      PowDecreases(r, n, 1785);
    }
    if n <= 630 {
      PowDecreases(r, n, 630);
    }
  }

  lemma CombNext(s: Delay, input: real, style: Style, top: real, r: real, e: real)
    requires s.cells != [] && |s.cells| <= 1785 && CombFades(s, top, r, e) && Lasts(r) && 0.0 <= top && 0.0 <= e
    requires Sane(style) && style.damping <= 0.75 && Mag(input) <= 0.015 * top + 0.78 * e / 11.0
    ensures CombFades(Next(s, input, style.feedback, style.damping), Down(top, r), r, e)
    ensures Mag(s.cells[0]) <= COMB * top + CombBound(e)
  {
    hide Fading, Mag, Next, CombBound, Soft, Back, Pow, Down, Leaves, Holds, Slow;
    var t, w, fb := COMB * top, CombBound(e), style.feedback;
    LastsLonger(r, |s.cells|);
    CombLeaves(fb, top, e);
    FirstCell(s.cells, t, r, w);
    StoreFades(s.cells[0], s.store, style.damping, t, r, w);
    var store := Soft(s.cells[0], s.store, style.damping);
    WriteFades(s.cells, input, store, fb, t, r, w, 0.935, 0.015 * top, 0.78 * e / 11.0);
    NextIs(s, input, fb, style.damping);
    CombFallen(Next(s, input, fb, style.damping), top, r, e);
  }

  lemma CombFallen(s: Delay, top: real, r: real, e: real)
    requires Fading(s.cells, Down(COMB * top, r), r, CombBound(e))
    requires Mag(s.store) <= LAG * Down(COMB * top, r) + CombBound(e)
    ensures CombFades(s, Down(top, r), r, e)
  {
    hide Fading, Mag, CombBound;
    DownScaled(COMB, top, r);
  }

  lemma NextIs(s: Delay, input: real, fb: real, d: real)
    requires s.cells != []
    ensures var store := Soft(s.cells[0], s.store, d);
      Next(s, input, fb, d) == Delay(s.cells[1..] + [input + Back(store, fb)], store)
  {
  }

  lemma FirstCell(cells: seq<real>, top: real, r: real, w: real)
    requires cells != [] && Fading(cells, top, r, w)
    ensures Mag(cells[0]) <= top + w
  {
    TailNext(top, r, 0);
  }

  lemma DownScaled(k: real, top: real, r: real)
    ensures Down(k * top, r) == k * Down(top, r)
  {
  }

  lemma CombLeaves(fb: real, top: real, e: real)
    requires 0.0 <= fb <= 0.88 && 0.0 <= top && 0.0 <= e
    ensures Leaves(0.935, fb, COMB * top, 0.015 * top)
    ensures Holds(fb, CombBound(e), 0.78 * e / 11.0)
  {
    NonNegative(0.88 - fb, LAG * (COMB * top));
    NonNegative(0.88 - fb, CombBound(e));
  }

  lemma {:induction false} CombSumFades(combs: seq<Delay>, n: nat, top: real, r: real, e: real)
    requires Held(combs) && n <= |combs| && forall i :: 0 <= i < n ==> CombFades(combs[i], top, r, e)
    ensures Mag(CombSum(combs, n)) <= Many(n, COMB * top + CombBound(e))
  {
    if n > 0 {
      hide Mag, Fading, CombBound, Many;
      CombSumFades(combs, n - 1, top, r, e);
      FirstCell(combs[n - 1].cells, COMB * top, r, CombBound(e));
      OneMoreOf(CombSum(combs, n - 1), combs[n - 1].cells[0], n - 1, COMB * top + CombBound(e));
    }
  }

  function Many(k: nat, b: real): real {
    k as real * b
  }

  lemma OneMoreOf(w: real, a: real, k: nat, b: real)
    requires Mag(w) <= Many(k, b) && Mag(a) <= b
    ensures Mag(w + a) <= Many(k + 1, b)
  {
    assert (k + 1) as real == k as real + 1.0;
  }

  /** One allpass: what it holds and gives out, an envelope and a floor each. */
  lemma AllpassNext(cells: seq<real>, input: real, k: nat, top: real, r: real, e: real)
    requires cells != [] && |cells| <= 630 && k < ALLS && Lasts(r) && 0.0 <= top && 0.0 <= e
    requires Fading(cells, AllTop(k, top), r, 2.0 * AfterAllpass(e, k))
    requires Mag(input) <= Into(k, top) + AfterAllpass(e, k)
    ensures Fading(cells[1..] + [input + cells[0] * 0.5], AllTop(k, Down(top, r)), r, 2.0 * AfterAllpass(e, k))
    ensures Mag(cells[0] - input) <= Into(k + 1, top) + AfterAllpass(e, k + 1)
  {
    hide Fading, AfterAllpass, Into, AllTop, Pow, Lasts, Tail, Down;
    var t, u, w := AllTop(k, top), Into(k, top), AfterAllpass(e, k);
    IntoNext(k, top, r);
    AllpassTriples(e, k);
    LastsLonger(r, |cells|);
    FirstCell(cells, t, r, 2.0 * w);
    KeptTail(t, r, |cells|, 0.977);
    HalfBack(input, cells[0], u, w, Tail(t, r, |cells|));
    FadingNext(cells, input + cells[0] * 0.5, t, r, 2.0 * w);
  }

  lemma HalfBack(input: real, held: real, u: real, w: real, tail: real)
    requires Mag(input) <= u + w && Mag(held) <= 2.1 * u + 2.0 * w && 0.977 * (2.1 * u) <= tail && 0.0 <= u
    ensures Mag(input + held * 0.5) <= tail + 2.0 * w
    ensures Mag(held - input) <= 3.1 * u + 3.0 * w
  {
  }

  lemma KeptTail(top: real, r: real, n: nat, keep: real)
    requires 0.0 <= top && keep <= Pow(r, n)
    ensures keep * top <= Tail(top, r, n)
  {
    hide Pow;
    Kept(top, keep, Pow(r, n));
  }

  lemma IntoNext(k: nat, top: real, r: real)
    requires k < ALLS && 0.0 <= top
    ensures AllTop(k, top) == 2.1 * Into(k, top) && 0.0 <= Into(k, top) && Into(k + 1, top) == 3.1 * Into(k, top)
    ensures Down(AllTop(k, top), r) == AllTop(k, Down(top, r))
  {
    hide Gain;
    GainNext(k);
    var g := Gain(k);
    NonNegative(g, top);
    assert 2.1 * (g * top) * r == 2.1 * (g * (top * r));
  }

  lemma {:induction false} ThroughFades(alls: seq<Delay>, n: nat, input: real, top: real, r: real, e: real)
    requires Held(alls) && n <= |alls| == ALLS && Lasts(r) && 0.0 <= top && 0.0 <= e
    requires forall i :: 0 <= i < ALLS ==>
      |alls[i].cells| <= 630 && Fading(alls[i].cells, AllTop(i, top), r, 2.0 * AfterAllpass(e, i))
    requires Mag(input) <= Into(0, top) + AfterAllpass(e, 0)
    ensures Mag(Through(alls, n, input)) <= Into(n, top) + AfterAllpass(e, n)
  {
    if n > 0 {
      hide Mag, AfterAllpass, Into, AllTop, Fading, Lasts, Down;
      ThroughFades(alls, n - 1, input, top, r, e);
      AllpassNext(alls[n - 1].cells, Through(alls, n - 1, input), n - 1, top, r, e);
    }
  }

  lemma SumInto(sum: real, top: real, e: real)
    requires Mag(sum) <= Many(COMBS, COMB * top + CombBound(e))
    ensures Mag(sum) <= Into(0, top) + AfterAllpass(e, 0)
  {
  }

  lemma SideNextFades(s: Side, input: real, style: Style, top: real, r: real, e: real)
    requires SideFades(s, top, r, e) && Lasts(r) && 0.0 <= top && 0.0 <= e
    requires Sane(style) && style.damping <= 0.75 && Mag(input) <= 0.015 * top + 0.78 * e / 11.0
    ensures SideFades(SideNext(s, input, style), Down(top, r), r, e)
    ensures Mag(SideOut(s)) <= Into(ALLS, top) + AfterAllpass(e, ALLS)
  {
    hide Mag, Fading, CombBound, AfterAllpass, Into, AllTop, Lasts, CombFades, Down, Many;
    var t := SideNext(s, input, style);
    forall i | 0 <= i < COMBS
      ensures CombFades(t.combs[i], Down(top, r), r, e)
    {
      CombNext(s.combs[i], input, style, top, r, e);
    }
    var sum := CombSum(s.combs, COMBS);
    CombSumFades(s.combs, COMBS, top, r, e);
    SumInto(sum, top, e);
    forall i | 0 <= i < ALLS
      ensures Fading(t.alls[i].cells, AllTop(i, Down(top, r)), r, 2.0 * AfterAllpass(e, i))
    {
      ThroughFades(s.alls, i, sum, top, r, e);
      AllpassNext(s.alls[i].cells, Through(s.alls, i, sum), i, top, r, e);
    }
    ThroughFades(s.alls, ALLS, sum, top, r, e);
  }

  // ---- the echo ----

  predicate EchoFades(f: EchoLine, top: real, r: real, e: real) {
    && f.l != [] && |f.l| == |f.r| && Fading(f.l, top, r, EchoBound(e)) && Fading(f.r, top, r, EchoBound(e))
    && Mag(f.darkL) <= LAG * top + EchoBound(e) && Mag(f.darkR) <= LAG * top + EchoBound(e)
  }

  lemma EchoLeaves(fb: real, keep: real, top: real, e: real)
    requires 0.0 <= fb <= ECHO_MAX && fb * LAG <= keep && 0.0 <= top && 0.0 <= e
    ensures Leaves(keep, fb, top, 0.0)
    ensures Holds(fb, EchoBound(e), 0.6 * e) && Holds(fb, EchoBound(e), 0.0)
  {
    NonNegative(keep - fb * LAG, top);
    NonNegative(ECHO_MAX - fb, EchoBound(e));
  }

  lemma EchoNextFades(f: EchoLine, x: Stereo, fb: real, mix: real, top: real, r: real, e: real, keep: real)
    requires EchoFades(f, top, r, e) && x.Under(e) && Slow(r) && 0.0 <= top && 0.0 <= e
    requires 0.0 <= fb <= ECHO_MAX && fb * LAG <= keep <= Pow(r, |f.l|) && 0.0 <= mix <= 0.5
    ensures EchoFades(Echoing(f, x, fb), Down(top, r), r, e)
    ensures Echoed(f, x, mix).Under(0.5 * top + 26.0 * e / 11.0)
  {
    hide Fading, Mag, EchoBound, Slow, Down, Pow, Soft, Back, Leaves, Holds;
    var w := EchoBound(e);
    EchoLeaves(fb, keep, top, e);
    FirstCell(f.l, top, r, w);
    FirstCell(f.r, top, r, w);
    StoreFades(f.r[0], f.darkL, 0.75, top, r, w);
    StoreFades(f.l[0], f.darkR, 0.75, top, r, w);
    DarkerIsSoft(f.darkL, f.r[0]);
    DarkerIsSoft(f.darkR, f.l[0]);
    FedIn(x, e);
    WriteFades(f.l, 0.5 * (x.l + x.r) * 0.6, Darker(f.darkL, f.r[0]), fb, top, r, w, keep, 0.0, 0.6 * e);
    WriteFades(f.r, 0.0, Darker(f.darkR, f.l[0]), fb, top, r, w, keep, 0.0, 0.0);
    NothingAdded(Back(Darker(f.darkR, f.l[0]), fb));
    EchoHeardFades(x.l, f.l[0], mix, top, e);
    EchoHeardFades(x.r, f.r[0], mix, top, e);
  }

  lemma NothingAdded(x: real)
    ensures 0.0 + x == x && Mag(0.0) <= 0.0 + 0.0
  {
  }

  lemma DarkerIsSoft(dark: real, x: real)
    ensures Darker(dark, x) == Soft(x, dark, 0.75)
  {
  }

  lemma FedIn(x: Stereo, e: real)
    requires x.Under(e)
    ensures Mag(0.5 * (x.l + x.r) * 0.6) <= 0.0 + 0.6 * e
  {
  }

  lemma EchoHeardFades(input: real, echo: real, mix: real, top: real, e: real)
    requires Mag(input) <= e && Mag(echo) <= top + EchoBound(e) && 0.0 <= mix <= 0.5 && 0.0 <= top && 0.0 <= e
    ensures Mag(input + Back(echo, mix)) <= 0.5 * top + 26.0 * e / 11.0
  {
    var b := top + EchoBound(e);
    HalfAtMost(echo, mix, b);
    Triangle(input, Back(echo, mix), e, 0.5 * b);
  }

  lemma HalfAtMost(echo: real, mix: real, b: real)
    requires Mag(echo) <= b && 0.0 <= mix <= 0.5
    ensures Mag(Back(echo, mix)) <= 0.5 * b
  {
    BackBounded(echo, mix, b);
    NonNegative(0.5 - mix, b);
  }
}
