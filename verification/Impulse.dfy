/**
 What one sample does in a new room: it is heard at once, then each side's reverb
 answers from its shortest comb, and the echo from left to right.
*/
module Impulse {
  import opened Reals
  import opened Comb
  import opened Reverb
  import opened Resting
  import opened SteadyEcho

  // ---- one sample, written out ----

  /** The cells have moved one along, and the newest is `x`. */
  predicate Shifted(cells: seq<real>, next: seq<real>, x: real) {
    && 0 < |next| == |cells| && next[|next| - 1] == x
    && forall j :: 0 <= j < |next| - 1 ==> next[j] == cells[j + 1]
  }

  /** Eight combs are fed the same; each low-pass moves toward the oldest cell, and what it returns joins the input. */
  lemma CombsWritten(s: Side, input: real, style: Style)
    requires Formed(s)
    ensures forall k :: 0 <= k < 8 ==>
      var d, t := s.combs[k], SideNext(s, input, style).combs[k];
      && t.store == d.cells[0] * (1.0 - style.damping) + d.store * style.damping
      && Shifted(d.cells, t.cells, input + t.store * style.feedback)
  {
    hide AllsNext, Next;
    forall k | 0 <= k < 8
      ensures
        var d, t := s.combs[k], SideNext(s, input, style).combs[k];
        && t.store == d.cells[0] * (1.0 - style.damping) + d.store * style.damping
        && Shifted(d.cells, t.cells, input + t.store * style.feedback)
    {
      NextWritten(s.combs[k], SideNext(s, input, style).combs[k], input, style);
    }
  }

  lemma NextWritten(d: Delay, t: Delay, input: real, style: Style)
    requires d.cells != [] && t == Next(d, input, style.feedback, style.damping)
    ensures
      && t.store == d.cells[0] * (1.0 - style.damping) + d.store * style.damping
      && Shifted(d.cells, t.cells, input + t.store * style.feedback)
  {
  }

  /** The sum of the combs goes through the allpasses in turn; each keeps half of what it held with what came in. */
  lemma AllsWritten(s: Side, input: real, style: Style)
    requires Formed(s)
    ensures
      var c, a := s.combs, s.alls;
      var w0 := c[0].cells[0] + c[1].cells[0] + c[2].cells[0] + c[3].cells[0]
              + c[4].cells[0] + c[5].cells[0] + c[6].cells[0] + c[7].cells[0];
      var w1 := a[0].cells[0] - w0;
      var w2 := a[1].cells[0] - w1;
      var w3 := a[2].cells[0] - w2;
      var t := SideNext(s, input, style).alls;
      && Shifted(a[0].cells, t[0].cells, w0 + 0.5 * a[0].cells[0])
      && Shifted(a[1].cells, t[1].cells, w1 + 0.5 * a[1].cells[0])
      && Shifted(a[2].cells, t[2].cells, w2 + 0.5 * a[2].cells[0])
      && Shifted(a[3].cells, t[3].cells, w3 + 0.5 * a[3].cells[0])
      && SideOut(s) == a[3].cells[0] - w3
  {
    hide CombsNext, CombSum, Through;
    SumWritten(s.combs);
    var a, w0 := s.alls, CombSum(s.combs, 8);
    ThroughWritten(a, w0);
    forall k | 0 <= k < 4
      ensures Shifted(a[k].cells, SideNext(s, input, style).alls[k].cells, Through(a, k, w0) + 0.5 * a[k].cells[0])
    {
      assert SideNext(s, input, style).alls[k] == AllNext(a[k], Through(a, k, w0));
    }
  }

  lemma SumWritten(c: seq<Delay>)
    requires Held(c) && |c| == 8
    ensures CombSum(c, 8) == c[0].cells[0] + c[1].cells[0] + c[2].cells[0] + c[3].cells[0]
                           + c[4].cells[0] + c[5].cells[0] + c[6].cells[0] + c[7].cells[0]
  {
    assert CombSum(c, 1) == c[0].cells[0];
    assert CombSum(c, 2) == CombSum(c, 1) + c[1].cells[0];
    assert CombSum(c, 3) == CombSum(c, 2) + c[2].cells[0];
    assert CombSum(c, 4) == CombSum(c, 3) + c[3].cells[0];
    assert CombSum(c, 5) == CombSum(c, 4) + c[4].cells[0];
    assert CombSum(c, 6) == CombSum(c, 5) + c[5].cells[0];
    assert CombSum(c, 7) == CombSum(c, 6) + c[6].cells[0];
  }

  lemma ThroughWritten(a: seq<Delay>, w: real)
    requires Held(a) && |a| == 4
    ensures Through(a, 0, w) == w && Through(a, 1, w) == a[0].cells[0] - w
    ensures Through(a, 2, w) == a[1].cells[0] - (a[0].cells[0] - w)
    ensures Through(a, 3, w) == a[2].cells[0] - (a[1].cells[0] - (a[0].cells[0] - w))
    ensures Through(a, 4, w) == a[3].cells[0] - (a[2].cells[0] - (a[1].cells[0] - (a[0].cells[0] - w)))
  {
    assert Through(a, 1, w) == a[0].cells[0] - w;
    assert Through(a, 2, w) == a[1].cells[0] - Through(a, 1, w);
    assert Through(a, 3, w) == a[2].cells[0] - Through(a, 2, w);
  }

  /** A sample that does not find the room resting: what the echo and both sides are fed, and what is heard. */
  lemma SampleWritten(style: Style, s: State, i: Input)
    requires Shaped(s) && i.Sane() && (Mag(i.x.l) + Mag(i.x.r) > 0.000001 || s.quiet < 288000)
    ensures
      var x := if i.wobble > 0.0 then Played(Recorded(s.tape, i.x), Behind(i.wobble, i.sine)) else i.x;
      var t := RoomNext(style, s, i);
      && t.tape == (if i.wobble > 0.0 then Recorded(s.tape, i.x) else s.tape)
      && (style.echoLen == 0 ==>
            && t.left == SideNext(s.left, 0.015 * (x.l + x.r), style)
            && t.right == SideNext(s.right, 0.015 * (x.l + x.r), style)
            && t.echo == s.echo
            && RoomOut(style, s, i) == Stereo(x.l + SideOut(s.left) * style.wet, x.r + SideOut(s.right) * style.wet))
      && (style.echoLen > 0 ==>
            var l, r := x.l + s.echo.l[0] * style.echoMix, x.r + s.echo.r[0] * style.echoMix;
            && t.left == SideNext(s.left, 0.015 * (l + r), style)
            && t.right == SideNext(s.right, 0.015 * (l + r), style)
            && t.echo == Echoing(s.echo, x, s.feedback)
            && RoomOut(style, s, i) == Stereo(l + SideOut(s.left) * style.wet, r + SideOut(s.right) * style.wet))
  {
    hide Played, Recorded, Echoing, Behind, SideNext, SideOut, Mono, Back;
    var x := AfterEcho(style, s, AfterTape(s, i));
    BackIs(SideOut(s.left), style.wet);
    BackIs(SideOut(s.right), style.wet);
    BackIs(s.echo.l[0], style.echoMix);
    BackIs(s.echo.r[0], style.echoMix);
    var y := AfterTape(s, i);
    MonoWritten(x, if style.echoLen > 0 then
                     0.015 * (y.l + s.echo.l[0] * style.echoMix + (y.r + s.echo.r[0] * style.echoMix))
                   else 0.015 * (y.l + y.r));
  }

  /** The same, with the sums named. */
  lemma SampleFed(style: Style, s: State, i: Input, l: real, r: real, middle: real)
    requires Shaped(s) && i.Sane() && (Mag(i.x.l) + Mag(i.x.r) > 0.000001 || s.quiet < 288000) && !(i.wobble > 0.0)
    requires l == (if style.echoLen > 0 then i.x.l + s.echo.l[0] * style.echoMix else i.x.l)
    requires r == (if style.echoLen > 0 then i.x.r + s.echo.r[0] * style.echoMix else i.x.r)
    requires middle == 0.015 * (l + r)
    ensures
      var t := RoomNext(style, s, i);
      && t.left == SideNext(s.left, middle, style) && t.right == SideNext(s.right, middle, style)
      && (style.echoLen > 0 ==> t.echo == Echoing(s.echo, i.x, s.feedback))
      && RoomOut(style, s, i) == Stereo(l + SideOut(s.left) * style.wet, r + SideOut(s.right) * style.wet)
  {
    hide Echoing, SideNext, SideOut, Mono, Back, Recorded, Played, Behind;
    BackIs(SideOut(s.left), style.wet);
    BackIs(SideOut(s.right), style.wet);
    BackIs(s.echo.l[0], style.echoMix);
    BackIs(s.echo.r[0], style.echoMix);
    var x := AfterEcho(style, s, AfterTape(s, i));
    assert x.l == l && x.r == r;
    MonoWritten(x, middle);
  }

  lemma MonoWritten(x: Stereo, middle: real)
    requires middle == 0.015 * (x.l + x.r)
    ensures Mono(x) == middle
  {
  }

  /** Six quiet seconds on, the room is left as it is and what goes in comes out; until then it counts. */
  lemma RestWritten(style: Style, s: State, i: Input)
    requires Shaped(s) && i.Sane()
    ensures Mag(i.x.l) + Mag(i.x.r) <= 0.000001 && s.quiet >= 288000 ==>
      RoomNext(style, s, i) == s && RoomOut(style, s, i) == i.x
    ensures Mag(i.x.l) + Mag(i.x.r) <= 0.000001 && s.quiet < 288000 ==> RoomNext(style, s, i).quiet == s.quiet + 1
    ensures Mag(i.x.l) + Mag(i.x.r) > 0.000001 ==> RoomNext(style, s, i).quiet == 0
  {
    hide Passed, Sounded;
  }

  /** With neither tape nor echo: the newest cell of every comb on both sides, in the inputs. */
  lemma CombsHearBoth(style: Style, s: State, i: Input)
    requires Shaped(s) && i.Sane() && (Mag(i.x.l) + Mag(i.x.r) > 0.000001 || s.quiet < 288000)
    requires i.wobble == 0.0 && style.echoLen == 0
    ensures
      var t := RoomNext(style, s, i);
      forall k :: 0 <= k < 8 ==>
        var dl, dr := s.left.combs[k], s.right.combs[k];
        var softL := dl.cells[0] * (1.0 - style.damping) + dl.store * style.damping;
        var softR := dr.cells[0] * (1.0 - style.damping) + dr.store * style.damping;
        && Shifted(dl.cells, t.left.combs[k].cells, 0.015 * (i.x.l + i.x.r) + softL * style.feedback)
        && Shifted(dr.cells, t.right.combs[k].cells, 0.015 * (i.x.l + i.x.r) + softR * style.feedback)
  {
    hide SideNext, RoomNext, Mag;
    SampleWritten(style, s, i);
    CombsWritten(s.left, 0.015 * (i.x.l + i.x.r), style);
    CombsWritten(s.right, 0.015 * (i.x.l + i.x.r), style);
  }

  /** What goes in goes to the left line, at six tenths of its middle; each low-pass follows the other line. */
  lemma EchoWritten(e: EchoLine, x: Stereo, fb: real)
    requires e.l != [] && e.r != []
    ensures
      var darkL, darkR := 0.75 * e.darkL + 0.25 * e.r[0], 0.75 * e.darkR + 0.25 * e.l[0];
      var f := Echoing(e, x, fb);
      && f.darkL == darkL && f.darkR == darkR
      && Shifted(e.l, f.l, 0.3 * (x.l + x.r) + darkL * fb) && Shifted(e.r, f.r, darkR * fb)
  {
    hide Back;
    BackIs(Darker(e.darkL, e.r[0]), fb);
    BackIs(Darker(e.darkR, e.l[0]), fb);
    assert Darker(e.darkL, e.r[0]) == 0.75 * e.darkL + 0.25 * e.r[0];
    assert Darker(e.darkR, e.l[0]) == 0.75 * e.darkR + 0.25 * e.l[0];
  }

  // ---- the tape ----

  /** Read `b` samples behind its newest: a tape that rose by one at each sample is `b` below what it rose to. */
  lemma TapeIsBehind(t: Tape, x: Stereo, top: real, wobble: real, sine: real)
    requires |t.l| == |t.r| == 2048 && 0.0 <= wobble <= 1.0 && Mag(sine) <= 1.0
    requires forall j :: 0 <= j < 2048 ==> t.l[j] == top - (2048 - j) as real && t.r[j] == top - (2048 - j) as real
    requires x == Stereo(top, top)
    ensures
      var y := top - (240.0 + wobble * 144.0 * sine);
      Played(Recorded(t, x), Behind(wobble, sine)) == Stereo(y, y)
  {
    hide Blend;
    var u, b := Recorded(t, x), Behind(wobble, sine);
    var c := Ceiling(b);
    assert (WOB - c) as real == 2048.0 - c as real;
    assert u.l[WOB - 1 - c] == top - c as real && u.r[WOB - 1 - c] == top - c as real;
    assert u.l[WOB - c] == top - c as real + 1.0 && u.r[WOB - c] == top - c as real + 1.0;
    Ramp(top - c as real, c as real - b);
    assert wobble * 144.0 * sine == 144.0 * (wobble * sine);
  }

  lemma Ramp(x: real, f: real)
    ensures Blend(x, x + 1.0, f) == x + f
  {
  }

  // ---- the reverb answers ----

  /** Nothing but `v`, fed `n` samples ago. */
  predicate Pulse(d: Delay, n: nat, v: real) {
    && 1 <= n <= |d.cells| && d.store == 0.0
    && forall j :: 0 <= j < |d.cells| ==> d.cells[j] == if j == |d.cells| - n then v else 0.0
  }

  predicate Nothing(cells: seq<real>) {
    forall j :: 0 <= j < |cells| ==> cells[j] == 0.0
  }

  predicate SidePulse(s: Side, n: nat, v: real) {
    && Formed(s) && (forall k :: 0 <= k < 8 ==> Pulse(s.combs[k], n, v))
    && forall k :: 0 <= k < 4 ==> Nothing(s.alls[k].cells)
  }

  /** The first comb is the shortest, by `len`. */
  predicate Shortest(s: Side, len: nat) {
    Formed(s) && |s.combs[0].cells| == len && forall k :: 1 <= k < 8 ==> len < |s.combs[k].cells|
  }

  lemma TunedShortest(s: Side, side: nat)
    requires Formed(s) && side < 2 && Tuned(s, side)
    ensures Shortest(s, if side == 0 then 1214 else 1239)
  {
  }

  lemma NothingIn(s: Side)
    requires SideUnder(s, 0.0)
    ensures forall k :: 0 <= k < 8 ==> Nothing(s.combs[k].cells) && s.combs[k].store == 0.0
    ensures forall k :: 0 <= k < 4 ==> Nothing(s.alls[k].cells)
  {
    forall k | 0 <= k < 8
      ensures Nothing(s.combs[k].cells) && s.combs[k].store == 0.0
    {
      assert Bounded(s.combs[k], CombBound(0.0));
    }
    forall k | 0 <= k < 4
      ensures Nothing(s.alls[k].cells)
    {
      assert Within(s.alls[k].cells, 2.0 * AfterAllpass(0.0, k));
    }
  }

  lemma NextQuiet(d: Delay, input: real, style: Style)
    requires d.cells != [] && d.cells[0] == 0.0 && d.store == 0.0
    ensures Next(d, input, style.feedback, style.damping) == Delay(d.cells[1..] + [input], 0.0)
  {
    assert Soft(0.0, 0.0, style.damping) == 0.0;
    assert input + Back(0.0, style.feedback) == input;
  }

  lemma PulseStarts(d: Delay, v: real, style: Style)
    requires d.cells != [] && Nothing(d.cells) && d.store == 0.0
    ensures Pulse(Next(d, v, style.feedback, style.damping), 1, v)
  {
    NextQuiet(d, v, style);
  }

  lemma PulseNext(d: Delay, n: nat, v: real, style: Style)
    requires Pulse(d, n, v) && n < |d.cells|
    ensures Pulse(Next(d, 0.0, style.feedback, style.damping), n + 1, v)
  {
    NextQuiet(d, 0.0, style);
  }

  lemma {:induction false} NoSum(c: seq<Delay>, n: nat)
    requires Held(c) && n <= |c| && forall k :: 0 <= k < n ==> c[k].cells[0] == 0.0
    ensures CombSum(c, n) == 0.0
  {
    if n > 0 {
      NoSum(c, n - 1);
    }
  }

  lemma {:induction false} FirstSum(c: seq<Delay>, n: nat)
    requires Held(c) && 1 <= n <= |c| && forall k :: 1 <= k < n ==> c[k].cells[0] == 0.0
    ensures CombSum(c, n) == c[0].cells[0]
  {
    if n > 1 {
      FirstSum(c, n - 1);
    }
  }

  lemma AllsStay(a: seq<Delay>)
    requires Held(a) && |a| == 4 && forall k :: 0 <= k < 4 ==> Nothing(a[k].cells)
    ensures forall k :: 0 <= k < 4 ==> Nothing(AllsNext(a, 0.0)[k].cells)
  {
    ThroughWritten(a, 0.0);
    forall k | 0 <= k < 4
      ensures Nothing(AllsNext(a, 0.0)[k].cells)
    {
      assert AllsNext(a, 0.0)[k] == AllNext(a[k], Through(a, k, 0.0));
    }
  }

  lemma SideStarts(s: Side, v: real, style: Style)
    requires SideUnder(s, 0.0)
    ensures SidePulse(SideNext(s, v, style), 1, v) && SideOut(s) == 0.0
  {
    hide Next, AllsNext, Pulse, Through, AfterAllpass;
    NothingIn(s);
    NoSum(s.combs, 8);
    AllsStay(s.alls);
    ThroughWritten(s.alls, 0.0);
    forall k | 0 <= k < 8
      ensures Pulse(SideNext(s, v, style).combs[k], 1, v)
    {
      PulseStarts(s.combs[k], v, style);
    }
  }

  lemma SideTravels(s: Side, n: nat, v: real, len: nat, style: Style)
    requires SidePulse(s, n, v) && Shortest(s, len) && n < len
    ensures SidePulse(SideNext(s, 0.0, style), n + 1, v) && SideOut(s) == 0.0
  {
    hide Next, AllsNext, Through;
    NoSum(s.combs, 8);
    AllsStay(s.alls);
    ThroughWritten(s.alls, 0.0);
    forall k | 0 <= k < 8
      ensures Pulse(SideNext(s, 0.0, style).combs[k], n + 1, v)
    {
      PulseNext(s.combs[k], n, v, style);
    }
  }

  lemma SideAnswers(s: Side, n: nat, v: real)
    requires SidePulse(s, n, v) && Shortest(s, n)
    ensures SideOut(s) == v
  {
    FirstSum(s.combs, 8);
    ThroughWritten(s.alls, v);
  }

  // ---- the echo answers, left and then right ----

  /** Nothing but `v` in the left line, fed `n` samples ago. */
  predicate EchoPulse(e: EchoLine, n: nat, v: real) {
    && 1 <= n <= |e.l| == |e.r| && e.darkL == 0.0 && e.darkR == 0.0 && Nothing(e.r)
    && forall j :: 0 <= j < |e.l| ==> e.l[j] == if j == |e.l| - n then v else 0.0
  }

  lemma EchoStarts(e: EchoLine, x: Stereo, fb: real)
    requires EchoUnder(e, 0.0) && |e.l| == |e.r|
    ensures EchoPulse(Echoing(e, x, fb), 1, 0.3 * (x.l + x.r))
    ensures Nothing(e.l) && Nothing(e.r)
  {
    EchoWritten(e, x, fb);
  }

  lemma EchoTravels(e: EchoLine, n: nat, v: real, fb: real)
    requires EchoPulse(e, n, v) && n < |e.l|
    ensures EchoPulse(Echoing(e, QUIET, fb), n + 1, v)
  {
    EchoWritten(e, QUIET, fb);
  }

  /** What the right line was fed when the left line's low-pass had it `k` samples ago. */
  function Crossed(v: real, fb: real, k: nat): real {
    0.25 * v * Pow(0.75, k) * fb
  }

  /** `n` samples after the left line gave it out: the right line holds what its low-pass made of it. */
  predicate EchoCrossed(e: EchoLine, n: nat, v: real, fb: real) {
    && 1 <= n <= |e.l| == |e.r| && e.darkL == 0.0 && e.darkR == 0.25 * v * Pow(0.75, n - 1) && Nothing(e.l)
    && forall j :: 0 <= j < |e.r| ==> e.r[j] == if j < |e.r| - n then 0.0 else Crossed(v, fb, j - (|e.r| - n))
  }

  lemma EchoCrosses(e: EchoLine, v: real, fb: real)
    requires EchoPulse(e, |e.l|, v)
    ensures EchoCrossed(Echoing(e, QUIET, fb), 1, v, fb)
  {
    EchoWritten(e, QUIET, fb);
    assert Pow(0.75, 0) == 1.0;
  }

  lemma EchoCrossedNext(e: EchoLine, n: nat, v: real, fb: real)
    requires EchoCrossed(e, n, v, fb) && n < |e.l|
    ensures EchoCrossed(Echoing(e, QUIET, fb), n + 1, v, fb)
  {
    EchoWritten(e, QUIET, fb);
    var f := Echoing(e, QUIET, fb);
    assert f.darkR == 0.25 * v * Pow(0.75, n) by {
      assert Pow(0.75, n) == 0.75 * Pow(0.75, n - 1);
    }
    hide Pow;
    forall j | 0 <= j < |f.r|
      ensures f.r[j] == if j < |f.r| - (n + 1) then 0.0 else Crossed(v, fb, j - (|f.r| - (n + 1)))
    {
      if j < |f.r| - 1 {
        assert f.r[j] == e.r[j + 1];
      }
    }
  }

  lemma {:induction false} EchoRun(e: EchoLine, x: Stereo, n: nat, fb: real)
    requires EchoUnder(e, 0.0) && |e.l| == |e.r| && n < 2 * |e.l|
    ensures
      var v, f := 0.3 * (x.l + x.r), Silent(Echoing(e, x, fb), n, fb);
      if n < |e.l| then EchoPulse(f, n + 1, v) else EchoCrossed(f, n + 1 - |e.l|, v, fb)
  {
    hide EchoPulse, EchoCrossed, Echoing;
    var v := 0.3 * (x.l + x.r);
    if n == 0 {
      EchoStarts(e, x, fb);
    } else {
      EchoRun(e, x, n - 1, fb);
      var f := Silent(Echoing(e, x, fb), n - 1, fb);
      if n < |e.l| {
        EchoTravels(f, n, v, fb);
      } else if n == |e.l| {
        EchoCrosses(f, v, fb);
      } else {
        EchoCrossedNext(f, n - |e.l|, v, fb);
      }
    }
  }

  /**
   An empty echo, one sample and silence: nothing comes back before the line's
   length, then once on the left alone, six tenths of the middle; after as long
   again on the right, a quarter of that times the feedback.
  */
  lemma PingPong(e: EchoLine, x: Stereo, n: nat, fb: real, mix: real)
    requires EchoUnder(e, 0.0) && |e.l| == |e.r| && 1 <= n <= 2 * |e.l|
    ensures
      var len, heard := |e.l|, Echoed(Silent(Echoing(e, x, fb), n - 1, fb), QUIET, mix);
      && heard.l == (if n == len then 0.3 * (x.l + x.r) * mix else 0.0)
      && heard.r == (if n == 2 * len then 0.25 * (0.3 * (x.l + x.r)) * fb * mix else 0.0)
  {
    EchoRun(e, x, n - 1, fb);
    hide Silent, Echoing;
    var f := Silent(Echoing(e, x, fb), n - 1, fb);
    HeardWritten(f, mix);
    assert Pow(0.75, 0) == 1.0;
  }

  lemma HeardWritten(f: EchoLine, mix: real)
    requires f.l != [] && f.r != []
    ensures Echoed(f, QUIET, mix).l == f.l[0] * mix && Echoed(f, QUIET, mix).r == f.r[0] * mix
  {
  }

  // ---- the rooms there are ----

  /** Freeverb's delays in samples at 48 kHz, eight combs and four allpasses, the right side's longer. */
  lemma DelaysWritten(k: nat)
    requires k < 12
    ensures Length(k, 0) == [1214, 1293, 1389, 1475, 1547, 1622, 1694, 1760, 605, 480, 371, 244][k]
    ensures Length(k, 1) == [1239, 1318, 1414, 1500, 1572, 1647, 1719, 1785, 630, 505, 396, 269][k]
  {
  }

  /** Each style's reverb, and its echo in samples: 0.45, 0.18, 0.6, 0.55 and 0.3515625 seconds. */
  lemma RoomsWritten(room: nat)
    requires room < 7
    ensures |ROOMS| == 7 && ROOMS[room].feedback == [0.84, 0.76, 0.78, 0.88, 0.86, 0.86, 0.74][room]
    ensures ROOMS[room].damping == [0.25, 0.45, 0.5, 0.2, 0.6, 0.55, 0.5][room]
    ensures ROOMS[room].wet == [1.0, 0.6, 0.7, 1.1, 0.9, 0.85, 0.45][room]
    ensures ROOMS[room].echoLen == [21600, 0, 8640, 28800, 26400, 16875, 0][room]
    ensures ROOMS[room].echoFeedback == [0.45, 0.0, 0.25, 0.35, 0.3, 0.45, 0.0][room]
    ensures ROOMS[room].echoMix == [0.5, 0.0, 0.35, 0.3, 0.3, 0.35, 0.0][room]
  {
  }

  // ---- a new room answers ----

  const HUSH := Input(QUIET, 0.0, 0.0)

  /** One sample and `n` of silence, the tape off. */
  function Clap(x: Stereo, n: nat): (ms: seq<Moment>)
    ensures |ms| == n + 1
    ensures forall k :: 0 <= k < |ms| ==> ms[k] == Sample(if k == 0 then Input(x, 0.0, 0.0) else HUSH)
    ensures forall k :: 0 <= k < |ms| ==> ms[k].Sane()
  {
    if n == 0 then [Sample(Input(x, 0.0, 0.0))] else Clap(x, n - 1) + [Sample(HUSH)]
  }

  /** `n` samples after `v` was fed to both sides. */
  predicate Answering(style: Style, t: State, n: nat, x: Stereo) {
    && Shaped(t) && t.quiet <= n && Shortest(t.left, 1214) && Shortest(t.right, 1239)
    && (n <= 1214 ==> SidePulse(t.left, n, 0.015 * (x.l + x.r)))
    && (n <= 1239 ==> SidePulse(t.right, n, 0.015 * (x.l + x.r)))
    && (style.echoLen > 0 ==> |t.echo.l| == style.echoLen)
    && (style.echoLen > 0 && n <= 1240 ==> EchoPulse(t.echo, n, 0.3 * (x.l + x.r)))
  }

  lemma StaysShortest(s: Side, input: real, style: Style, len: nat)
    requires Shortest(s, len)
    ensures Shortest(SideNext(s, input, style), len)
  {
    hide Next, AllsNext;
  }

  lemma NewAnswers(style: Style, s: State, x: Stereo)
    requires Empty(style, s) && (style.echoLen == 0 || 1240 <= style.echoLen)
    ensures Shaped(s)
    ensures Answering(style, RoomNext(style, s, Input(x, 0.0, 0.0)), 1, x)
    ensures RoomOut(style, s, Input(x, 0.0, 0.0)) == x
  {
    hide SidePulse, EchoPulse, SideNext, SideOut, Shortest, Echoing, RoomNext, RoomOut, SideUnder, EchoUnder, TapeUnder;
    hide Tuned, Recorded, Played;
    var i := Input(x, 0.0, 0.0);
    var v := 0.015 * (x.l + x.r);
    QuietOf(style, s, i);
    if style.echoLen > 0 {
      EchoStarts(s.echo, x, s.feedback);
      assert s.echo.l[0] == 0.0 && s.echo.r[0] == 0.0;
    }
    SampleFed(style, s, i, x.l, x.r, v);
    TunedShortest(s.left, 0);
    TunedShortest(s.right, 1);
    SideStarts(s.left, v, style);
    SideStarts(s.right, v, style);
    StaysShortest(s.left, v, style, 1214);
    StaysShortest(s.right, v, style, 1239);
  }

  lemma QuietOf(style: Style, s: State, i: Input)
    requires Shaped(s) && i.Sane() && s.quiet < 288000
    ensures RoomNext(style, s, i).quiet <= s.quiet + 1 && RoomNext(style, s, i).feedback == s.feedback
  {
    hide Passed;
  }

  lemma AnswersOn(style: Style, t: State, n: nat, x: Stereo)
    requires Answering(style, t, n, x) && 1 <= n <= 1239 && (style.echoLen == 0 || 1240 <= style.echoLen)
    ensures Answering(style, RoomNext(style, t, HUSH), n + 1, x)
    ensures var out := RoomOut(style, t, HUSH);
      && (n < 1214 ==> out.l == 0.0) && (n == 1214 ==> out.l == 0.015 * (x.l + x.r) * style.wet)
      && (n < 1239 ==> out.r == 0.0) && (n == 1239 ==> out.r == 0.015 * (x.l + x.r) * style.wet)
  {
    hide SidePulse, EchoPulse, SideNext, SideOut, Shortest, Echoing, RoomNext, RoomOut, Recorded, Played;
    var v := 0.015 * (x.l + x.r);
    QuietOf(style, t, HUSH);
    StaysShortest(t.left, 0.0, style, 1214);
    StaysShortest(t.right, 0.0, style, 1239);
    if style.echoLen > 0 {
      EchoSilent(t.echo, n, 0.3 * (x.l + x.r));
      if n < 1240 {
        EchoTravels(t.echo, n, 0.3 * (x.l + x.r), t.feedback);
      }
    }
    SampleFed(style, t, HUSH, 0.0, 0.0, 0.0);
    if n < 1214 {
      SideTravels(t.left, n, v, 1214, style);
    } else if n == 1214 {
      SideAnswers(t.left, n, v);
    }
    if n < 1239 {
      SideTravels(t.right, n, v, 1239, style);
    } else {
      SideAnswers(t.right, n, v);
    }
  }

  lemma EchoSilent(e: EchoLine, n: nat, v: real)
    requires EchoPulse(e, n, v) && n < |e.l|
    ensures e.l[0] == 0.0 && e.r[0] == 0.0
  {
  }

  lemma {:induction false} ClapRun(style: Style, s: State, x: Stereo, n: nat)
    requires Empty(style, s) && (style.echoLen == 0 || 1240 <= style.echoLen) && n <= 1239
    ensures Shaped(s)
    ensures Answering(style, RoomRun(style, s, Clap(x, n)), n + 1, x)
  {
    hide Answering, RoomNext, RoomOut, Empty;
    NewAnswers(style, s, x);
    ClapLast(x, n);
    if n == 0 {
      assert Clap(x, 0)[..0] == [];
    } else {
      ClapRun(style, s, x, n - 1);
      AnswersOn(style, RoomRun(style, s, Clap(x, n - 1)), n, x);
    }
  }

  lemma ClapLast(x: Stereo, n: nat)
    ensures n > 0 ==> Clap(x, n)[..n] == Clap(x, n - 1)
  {
  }

  lemma {:induction false} ClapHeard(style: Style, s: State, x: Stereo, n: nat)
    requires Empty(style, s) && (style.echoLen == 0 || 1240 <= style.echoLen) && n <= 1239
    ensures Shaped(s)
    ensures
      var outs := Outs(style, s, Clap(x, n));
      && |outs| == n + 1 && outs[0] == x
      && (forall k :: 1 <= k <= n && k < 1214 ==> outs[k].l == 0.0)
      && (n >= 1214 ==> outs[1214].l == 0.015 * (x.l + x.r) * style.wet)
      && (forall k :: 1 <= k <= n && k < 1239 ==> outs[k].r == 0.0)
      && (n >= 1239 ==> outs[1239].r == 0.015 * (x.l + x.r) * style.wet)
  {
    hide Answering, RoomNext, RoomOut, Empty, RoomRun, Outs, Clap;
    NewAnswers(style, s, x);
    ClapOuts(style, s, x, n);
    if n > 0 {
      ClapRun(style, s, x, n - 1);
      ClapHeard(style, s, x, n - 1);
      AnswersOn(style, RoomRun(style, s, Clap(x, n - 1)), n, x);
    }
  }

  lemma ClapOuts(style: Style, s: State, x: Stereo, n: nat)
    requires Shaped(s)
    ensures Outs(style, s, Clap(x, n)) ==
      if n == 0 then [RoomOut(style, s, Input(x, 0.0, 0.0))]
      else Outs(style, s, Clap(x, n - 1)) + [RoomOut(style, RoomRun(style, s, Clap(x, n - 1)), HUSH)]
  {
    hide RoomOut, RoomNext;
    ClapLast(x, n);
    var ms := Clap(x, n);
    assert Outs(style, s, ms) ==
      Outs(style, s, ms[..n]) + [RoomOut(style, RoomRun(style, s, ms[..n]), ms[n].i)];
    if n == 0 {
      NothingRun(style, s, ms[..0]);
    }
  }

  /**
   Any row of the table of rooms, new: a sample is heard as it is, then nothing until
   each side's shortest comb, 1214 samples on the left and 1239 on the right, gives
   its middle out, upright, at 0.015 times both channels and the style's share.
  */
  lemma RoomAnswers(room: nat, s: State, x: Stereo)
    requires room < |ROOMS| && Empty(ROOMS[room], s)
    ensures Shaped(s)
    ensures
      var outs := Outs(ROOMS[room], s, Clap(x, 1239));
      && |outs| == 1240 && outs[0] == x
      && (forall k :: 1 <= k < 1214 ==> outs[k].l == 0.0) && outs[1214].l == 0.015 * (x.l + x.r) * ROOMS[room].wet
      && (forall k :: 1 <= k < 1239 ==> outs[k].r == 0.0) && outs[1239].r == 0.015 * (x.l + x.r) * ROOMS[room].wet
      && ROOMS[room].wet == [1.0, 0.6, 0.7, 1.1, 0.9, 0.85, 0.45][room]
  {
    hide Empty, Clap, Outs;
    EveryRoomAnswers(room);
    ClapHeard(ROOMS[room], s, x, 1239);
  }

  lemma NothingRun(style: Style, s: State, ms: seq<Moment>)
    requires Shaped(s) && ms == []
    ensures RoomRun(style, s, ms) == s && Outs(style, s, ms) == []
  {
  }

  lemma EveryRoomAnswers(room: nat)
    requires room < |ROOMS|
    ensures ROOMS[room].wet == [1.0, 0.6, 0.7, 1.1, 0.9, 0.85, 0.45][room]
    ensures (ROOMS[room].echoLen == 0 || 1240 <= ROOMS[room].echoLen)
  {
  }
}
