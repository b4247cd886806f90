/**
 The echo at its loudest: what lines fed the loudest input for ever come to, which
 no run passes, and what they still hold after a time of silence.
*/
module SteadyEcho {
  import opened Reals
  import opened Comb
  import opened Reverb
  import opened Envelope

  const DARK := 0.75
  const QUIET := Stereo(0.0, 0.0)

  // ---- no run passes it ----

  /** The left line's level: what comes in, and what returns by way of both lines. */
  function Loudest(m: real, fb: real): real
    requires 0.0 <= fb <= ECHO_MAX
  {
    LessThanOne(fb);
    0.6 * m / (1.0 - fb * fb)
  }

  /** The right line only has what the left one returns to it. */
  function Returned(m: real, fb: real): real
    requires 0.0 <= fb <= ECHO_MAX
  {
    Back(Loudest(m, fb), fb)
  }

  lemma LessThanOne(fb: real)
    requires 0.0 <= fb <= ECHO_MAX
    ensures 0.0 < 1.0 - fb * fb
  {
    AtMostSquare(fb, fb, ECHO_MAX);
  }

  lemma AtMostSquare(x: real, y: real, most: real)
    requires 0.0 <= x <= most && 0.0 <= y <= most
    ensures x * y <= most * most
  {
    NonNegative(x, most - y);
    NonNegative(most - x, most);
  }

  lemma LoudestReturns(m: real, fb: real)
    requires 0.0 <= fb <= ECHO_MAX && 0.0 <= m
    ensures Loudest(m, fb) == 0.6 * m + Back(Returned(m, fb), fb)
    ensures 0.0 <= Returned(m, fb) <= Loudest(m, fb)
  {
    LessThanOne(fb);
    LoudestIs(m, fb, fb * fb);
    var b := Loudest(m, fb);
    Quotient(0.6 * m, 1.0 - fb * fb, b);
    BackLess(b, b, fb);
  }

  lemma LoudestIs(m: real, fb: real, q: real)
    requires 0.0 <= fb <= ECHO_MAX && q == fb * fb && q < 1.0
    ensures Loudest(m, fb) == 0.6 * m + Back(Returned(m, fb), fb)
    ensures Loudest(m, fb) * (1.0 - q) == 0.6 * m
  {
    var b := Loudest(m, fb);
    assert b * (1.0 - q) == b - b * q;
    assert b * fb * fb == b * q;
  }

  lemma Quotient(a: real, d: real, b: real)
    requires 0.0 <= a && 0.0 < d && b * d == a
    ensures 0.0 <= b
  {
    if b < 0.0 {
      Positive(-b, d);
    }
  }

  /** The tight pair of bounds: the left line and what follows it, the right line and what follows that. */
  predicate Tight(f: EchoLine, m: real, fb: real)
    requires 0.0 <= fb <= ECHO_MAX
  {
    && f.l != [] && f.r != []
    && Within(f.l, Loudest(m, fb)) && Within(f.r, Returned(m, fb))
    && Mag(f.darkL) <= Returned(m, fb) && Mag(f.darkR) <= Loudest(m, fb)
  }

  lemma DarkerWithin(dark: real, x: real, b: real)
    requires Mag(dark) <= b && Mag(x) <= b
    ensures Mag(Darker(dark, x)) <= b
  {
    Mean(0.25, x, dark, b);
  }

  lemma BackWithin(x: real, f: real, fb: real, b: real)
    requires Mag(x) <= b && 0.0 <= f <= fb
    ensures Mag(Back(x, f)) <= Back(b, fb)
  {
    BackBounded(x, f, b);
    NonNegative(b, fb - f);
  }

  /** Whatever comes in within `m`, at any feedback up to `fb`. */
  lemma StaysTight(e: EchoLine, x: Stereo, f: real, m: real, fb: real)
    requires 0.0 <= f <= fb <= ECHO_MAX && 0.0 <= m && Tight(e, m, fb) && x.Under(m)
    ensures Tight(Echoing(e, x, f), m, fb)
  {
    hide Mag, Back, Darker, Loudest, Returned;
    LoudestReturns(m, fb);
    ReturnedIs(m, fb);
    var darkL, darkR := Darker(e.darkL, e.r[0]), Darker(e.darkR, e.l[0]);
    DarkerWithin(e.darkL, e.r[0], Returned(m, fb));
    DarkerWithin(e.darkR, e.l[0], Loudest(m, fb));
    BackWithin(darkL, f, fb, Returned(m, fb));
    BackWithin(darkR, f, fb, Loudest(m, fb));
    FedIn(x, m);
    Triangle(0.5 * (x.l + x.r) * 0.6, Back(darkL, f), 0.6 * m, Back(Returned(m, fb), fb));
  }

  lemma ReturnedIs(m: real, fb: real)
    requires 0.0 <= fb <= ECHO_MAX
    ensures Returned(m, fb) == Back(Loudest(m, fb), fb)
  {
  }

  lemma SilenceIsTight(e: EchoLine, m: real, fb: real)
    requires EchoUnder(e, 0.0) && 0.0 <= fb <= ECHO_MAX && 0.0 <= m
    ensures Tight(e, m, fb)
  {
    hide Loudest, Returned;
    LoudestReturns(m, fb);
  }

  /** Over any run of any room, in which no tick asks for a feedback over `fb`. */
  lemma {:induction false} RunTight(style: Style, s: State, ms: seq<Moment>, m: real, fb: real)
    requires Sane(style) && Under(s, m) && 0.0 <= fb <= ECHO_MAX && s.feedback <= fb && Tight(s.echo, m, fb)
    requires forall k :: 0 <= k < |ms| ==>
      ms[k].Sane() && ms[k].Under(m) && (ms[k].Hang? ==> Target(ms[k].ioWait) <= fb)
    ensures Shaped(s) && Under(RoomRun(style, s, ms), m)
    ensures RoomRun(style, s, ms).feedback <= fb && Tight(RoomRun(style, s, ms).echo, m, fb)
  {
    hide Under, Shaped, Stereo.Under, RoomNext, Sane, Tight;
    UnderShaped(s, m);
    if ms != [] {
      var n := |ms| - 1;
      RunTight(style, s, ms[..n], m, fb);
      RunBounded(style, s, ms, m);
      MomentTight(style, RoomRun(style, s, ms[..n]), ms[n], m, fb);
    }
  }

  lemma MomentTight(style: Style, s: State, mo: Moment, m: real, fb: real)
    requires Sane(style) && Under(s, m) && 0.0 <= fb <= ECHO_MAX && s.feedback <= fb && Tight(s.echo, m, fb)
    requires Shaped(s) && mo.Sane() && mo.Under(m) && (mo.Hang? ==> Target(mo.ioWait) <= fb)
    ensures At(style, s, mo).feedback <= fb && Tight(At(style, s, mo).echo, m, fb)
  {
    hide TapeUnder, EchoUnder, SideUnder, Recorded, Played, Echoing, SideNext, Behind, Mono, Tight;
    if mo.Sample? {
      TapeBounded(s.tape, mo.i.x, Behind(mo.i.wobble, mo.i.sine), m);
      StaysTight(s.echo, AfterTape(s, mo.i), s.feedback, m, fb);
    }
  }

  // ---- silence after it ----

  function Steady(len: nat, m: real, fb: real): (f: EchoLine)
    requires 0 < len && 0.0 <= fb <= ECHO_MAX
    ensures |f.l| == |f.r| == len
  {
    var b, c := Loudest(m, fb), Returned(m, fb);
    EchoLine(seq(len, _ => b), seq(len, _ => c), c, b)
  }

  /** `n` samples of silence. */
  function Silent(f: EchoLine, n: nat, fb: real): (g: EchoLine)
    requires f.l != [] && f.r != []
    ensures |g.l| == |f.l| && |g.r| == |f.r|
  {
    if n == 0 then f else Echoing(Silent(f, n - 1, fb), QUIET, fb)
  }

  /** What the loudest echo still holds after `n` samples of silence. */
  function Residue(len: nat, m: real, n: nat, fb: real): (f: EchoLine)
    requires 0 < len && 0.0 <= fb <= ECHO_MAX
    ensures |f.l| == |f.r| == len
  {
    Silent(Steady(len, m, fb), n, fb)
  }

  lemma ResidueNext(len: nat, m: real, n: nat, fb: real)
    requires 0 < len && 0.0 <= fb <= ECHO_MAX
    ensures Residue(len, m, n + 1, fb) == Echoing(Residue(len, m, n, fb), QUIET, fb)
    ensures Residue(len, m, 0, fb) == Steady(len, m, fb)
  {
  }

  /** Silence writes back what the low-passes return, no more. */
  lemma QuietWrites(f: EchoLine, fb: real)
    requires f.l != [] && f.r != []
    ensures var darkL, darkR := Soft(f.r[0], f.darkL, DARK), Soft(f.l[0], f.darkR, DARK);
      Echoing(f, QUIET, fb) == EchoLine(f.l[1..] + [Back(darkL, fb)], f.r[1..] + [Back(darkR, fb)], darkL, darkR)
  {
    hide Back, Darker;
    DarkerIsSoft(f.darkL, f.r[0]);
    DarkerIsSoft(f.darkR, f.l[0]);
    NoInput(Back(Darker(f.darkL, f.r[0]), fb));
  }

  lemma NoInput(x: real)
    ensures 0.5 * (0.0 + 0.0) * 0.6 + x == x
  {
  }

  // ---- its cells in order ----

  /** Older cells are louder, the low-pass that follows a line louder than its oldest. */
  predicate Falls(cells: seq<real>, dark: real, fed: real, fb: real) {
    && cells != [] && 0.0 <= cells[|cells| - 1] && Back(fed, fb) <= cells[|cells| - 1] && cells[0] <= dark
    && forall i, j :: 0 <= i < j < |cells| ==> cells[j] <= cells[i]
  }

  predicate Ordered(f: EchoLine, fb: real) {
    Falls(f.l, f.darkR, f.darkL, fb) && Falls(f.r, f.darkL, f.darkR, fb)
  }

  lemma SoftBetween(x: real, y: real)
    requires 0.0 <= x <= y
    ensures x <= Soft(x, y, DARK) <= y
  {
  }

  lemma BackLess(x: real, y: real, fb: real)
    requires 0.0 <= x <= y && 0.0 <= fb <= 1.0
    ensures 0.0 <= Back(x, fb) && Back(x, fb) <= x && Back(x, fb) <= Back(y, fb)
  {
    NonNegative(x, fb);
    NonNegative(x, 1.0 - fb);
    NonNegative(y - x, fb);
  }

  /** One line of the pair: what follows it moves down to its oldest cell, what feeds it moves down too. */
  lemma FallsNext(cells: seq<real>, dark: real, dark': real, fed: real, fed': real, fb: real)
    requires Falls(cells, dark, fed, fb) && 0.0 <= fb <= 1.0 && cells[0] <= dark' && 0.0 <= fed' <= fed
    ensures Falls(cells[1..] + [Back(fed', fb)], dark', fed', fb)
  {
    hide Back;
    var n := |cells|;
    BackLess(fed', fed, fb);
    var t := cells[1..] + [Back(fed', fb)];
    forall i, j | 0 <= i < j < n
      ensures t[j] <= t[i]
    {
      if j == n - 1 {
        assert cells[n - 1] <= cells[i + 1] || i + 1 == n - 1;
      } else {
        assert cells[j + 1] <= cells[i + 1];
      }
    }
    if n > 1 {
      assert cells[1] <= cells[0];
    }
  }

  lemma OldestNotNegative(cells: seq<real>, dark: real, fed: real, fb: real)
    requires Falls(cells, dark, fed, fb)
    ensures cells != [] && 0.0 <= cells[0] <= dark
    ensures forall i :: 0 <= i < |cells| ==> 0.0 <= cells[i] <= cells[0]
  {
    var n := |cells|;
    forall i | 0 <= i < n
      ensures 0.0 <= cells[i] <= cells[0]
    {
      assert i == n - 1 || cells[n - 1] <= cells[i];
      assert i == 0 || cells[i] <= cells[0];
    }
  }

  lemma OrderedNext(f: EchoLine, fb: real)
    requires Ordered(f, fb) && 0.0 <= fb <= 1.0
    ensures Ordered(Echoing(f, QUIET, fb), fb)
  {
    hide Soft, Back, Falls;
    OldestNotNegative(f.l, f.darkR, f.darkL, fb);
    OldestNotNegative(f.r, f.darkL, f.darkR, fb);
    QuietWrites(f, fb);
    SoftBetween(f.r[0], f.darkL);
    SoftBetween(f.l[0], f.darkR);
    var darkL, darkR := Soft(f.r[0], f.darkL, DARK), Soft(f.l[0], f.darkR, DARK);
    FallsNext(f.l, f.darkR, darkR, f.darkL, darkL, fb);
    FallsNext(f.r, f.darkL, darkL, f.darkR, darkR, fb);
  }

  lemma SteadyOrdered(len: nat, m: real, fb: real)
    requires 0 < len && 0.0 <= fb <= ECHO_MAX && 0.0 <= m
    ensures Ordered(Steady(len, m, fb), fb)
  {
    hide Loudest, Returned, Back;
    LoudestReturns(m, fb);
    ReturnedIs(m, fb);
    BackLess(Returned(m, fb), Loudest(m, fb), fb);
  }

  lemma {:induction false} ResidueOrdered(len: nat, m: real, n: nat, fb: real)
    requires 0 < len && 0.0 <= fb <= ECHO_MAX && 0.0 <= m
    ensures Ordered(Residue(len, m, n, fb), fb)
  {
    hide Residue, Ordered, Echoing, Steady;
    ResidueNext(len, m, 0, fb);
    if n == 0 {
      SteadyOrdered(len, m, fb);
    } else {
      ResidueOrdered(len, m, n - 1, fb);
      ResidueNext(len, m, n - 1, fb);
      OrderedNext(Residue(len, m, n - 1, fb), fb);
    }
  }

  /** The loudest cell the loudest echo still has. */
  function Level(len: nat, m: real, n: nat, fb: real): real
    requires 0 < len && 0.0 <= fb <= ECHO_MAX
  {
    var f := Residue(len, m, n, fb);
    MaxR(f.l[0], f.r[0])
  }

  lemma UnderLevel(len: nat, m: real, n: nat, fb: real)
    requires 0 < len && 0.0 <= fb <= ECHO_MAX && 0.0 <= m
    ensures var f, b := Residue(len, m, n, fb), Level(len, m, n, fb);
      forall i :: 0 <= i < len ==> 0.0 <= f.l[i] <= b && 0.0 <= f.r[i] <= b
  {
    hide Residue, Falls;
    ResidueOrdered(len, m, n, fb);
    var f := Residue(len, m, n, fb);
    OldestNotNegative(f.l, f.darkR, f.darkL, fb);
    OldestNotNegative(f.r, f.darkL, f.darkR, fb);
  }

  // ---- nothing keeps more ----

  predicate Dominated(f: EchoLine, d: EchoLine, w: real) {
    && |f.l| == |f.r| == |d.l| == |d.r| && d.l != []
    && (forall i :: 0 <= i < |f.l| ==> Mag(f.l[i]) <= d.l[i] + w && Mag(f.r[i]) <= d.r[i] + w)
    && Mag(f.darkL) <= d.darkL + w && Mag(f.darkR) <= d.darkR + w
  }

  lemma DarkDominated(x: real, dark: real, u: real, v: real, w: real)
    requires Mag(x) <= u + w && Mag(dark) <= v + w
    ensures Mag(Darker(dark, x)) <= Soft(u, v, DARK) + w
  {
  }

  lemma WriteDominated(input: real, dark: real, store: real, f: real, fb: real, e: real)
    requires Mag(input) <= 0.6 * e && 0.0 <= e && Mag(dark) <= store + EchoBound(e) && 0.0 <= f <= fb <= ECHO_MAX
    ensures Mag(input + Back(dark, f)) <= Back(store, fb) + EchoBound(e)
  {
    var b := store + EchoBound(e);
    BackWithin(dark, f, fb, b);
    NonNegative(ECHO_MAX - fb, EchoBound(e));
    Triangle(input, Back(dark, f), 0.6 * e, Back(b, fb));
    assert Back(b, fb) == Back(store, fb) + fb * EchoBound(e) by { hide EchoBound; }
  }

  lemma DominatedNext(f: EchoLine, x: Stereo, at: real, d: EchoLine, fb: real, e: real)
    requires Dominated(f, d, EchoBound(e)) && x.Under(e) && 0.0 <= at <= fb <= ECHO_MAX && 0.0 <= e
    ensures f.l != [] && f.r != [] && d.r != []
    ensures Dominated(Echoing(f, x, at), Echoing(d, QUIET, fb), EchoBound(e))
  {
    hide Mag, Soft, Back, EchoBound, Darker;
    var w := EchoBound(e);
    QuietWrites(d, fb);
    DarkDominated(f.r[0], f.darkL, d.r[0], d.darkL, w);
    DarkDominated(f.l[0], f.darkR, d.l[0], d.darkR, w);
    FedIn(x, e);
    NothingIn(Back(Darker(f.darkR, f.l[0]), at), e);
    WriteDominated(0.5 * (x.l + x.r) * 0.6, Darker(f.darkL, f.r[0]), Soft(d.r[0], d.darkL, DARK), at, fb, e);
    WriteDominated(0.0, Darker(f.darkR, f.l[0]), Soft(d.l[0], d.darkR, DARK), at, fb, e);
  }

  lemma NothingIn(x: real, e: real)
    requires 0.0 <= e
    ensures Mag(0.0) <= 0.6 * e && 0.0 + x == x
  {
  }

  lemma TightDominated(f: EchoLine, len: nat, m: real, fb: real, e: real)
    requires 0 < len == |f.l| == |f.r| && 0.0 <= fb <= ECHO_MAX && 0.0 <= e && Tight(f, m, fb)
    ensures Dominated(f, Steady(len, m, fb), EchoBound(e))
  {
    hide Loudest, Returned;
  }

  // ---- and the loudest runs come as near as one likes ----

  predicate Bare(f: EchoLine) {
    && f.l != [] && |f.l| == |f.r| && 0.0 <= f.darkL && 0.0 <= f.darkR
    && forall i :: 0 <= i < |f.l| ==> 0.0 <= f.l[i] && 0.0 <= f.r[i]
  }

  /** What loud input leaves, not less than what it comes to, less what silence would leave of that. */
  predicate Covers(f: EchoLine, g: EchoLine, m: real, fb: real)
    requires 0.0 <= fb <= ECHO_MAX
  {
    && f.l != [] && |f.l| == |f.r| == |g.l| == |g.r|
    && (forall i :: 0 <= i < |f.l| ==> Loudest(m, fb) <= f.l[i] + g.l[i] && Returned(m, fb) <= f.r[i] + g.r[i])
    && Returned(m, fb) <= f.darkL + g.darkL && Loudest(m, fb) <= f.darkR + g.darkR
  }

  lemma DarkCovers(x: real, dark: real, u: real, v: real, b: real)
    requires b <= x + u && b <= dark + v
    ensures b <= Darker(dark, x) + Soft(u, v, DARK)
  {
  }

  lemma BackCovers(x: real, u: real, at: real, fb: real, b: real)
    requires 0.0 <= x && b <= x + u && 0.0 <= fb <= at
    ensures Back(b, fb) <= Back(x, at) + Back(u, fb)
    ensures 0.0 <= Back(x, at)
  {
    NonNegative(x, at - fb);
    NonNegative(x, at);
    NonNegative(x + u - b, fb);
  }

  lemma BareNext(f: EchoLine, x: Stereo, at: real)
    requires Bare(f) && 0.0 <= x.l && 0.0 <= x.r && 0.0 <= at
    ensures Bare(Echoing(f, x, at))
  {
    hide Back;
    NonNegative(Darker(f.darkL, f.r[0]), at);
    NonNegative(Darker(f.darkR, f.l[0]), at);
    BackIs(Darker(f.darkL, f.r[0]), at);
    BackIs(Darker(f.darkR, f.l[0]), at);
  }

  lemma BackIs(x: real, fb: real)
    ensures Back(x, fb) == x * fb
  {
  }

  lemma CoversNext(f: EchoLine, g: EchoLine, m: real, at: real, fb: real)
    requires Bare(f) && 0.0 <= fb <= ECHO_MAX && fb <= at && 0.0 <= m && Covers(f, g, m, fb)
    ensures f.r != [] && g.l != [] && g.r != []
    ensures Covers(Echoing(f, Stereo(m, m), at), Echoing(g, QUIET, fb), m, fb)
  {
    hide Soft, Back, Loudest, Returned, Darker;
    QuietWrites(g, fb);
    LoudestReturns(m, fb);
    ReturnedIs(m, fb);
    DarkNotNegative(f.darkL, f.r[0]);
    DarkNotNegative(f.darkR, f.l[0]);
    DarkCovers(f.r[0], f.darkL, g.r[0], g.darkL, Returned(m, fb));
    DarkCovers(f.l[0], f.darkR, g.l[0], g.darkR, Loudest(m, fb));
    BackCovers(Darker(f.darkL, f.r[0]), Soft(g.r[0], g.darkL, DARK), at, fb, Returned(m, fb));
    BackCovers(Darker(f.darkR, f.l[0]), Soft(g.l[0], g.darkR, DARK), at, fb, Loudest(m, fb));
    LoudIn(m);
  }

  lemma DarkNotNegative(dark: real, x: real)
    requires 0.0 <= dark && 0.0 <= x
    ensures 0.0 <= Darker(dark, x)
  {
  }

  lemma LoudIn(m: real)
    ensures 0.5 * (m + m) * 0.6 == 0.6 * m
  {
  }

  lemma SteadyCovers(f: EchoLine, len: nat, m: real, fb: real)
    requires Bare(f) && 0 < len == |f.l| && 0.0 <= fb <= ECHO_MAX
    ensures Covers(f, Steady(len, m, fb), m, fb)
  {
    hide Loudest, Returned;
  }

  // ---- more keeps more ----

  /** No cell of `g` is louder than the other's, and from `from` on each is quieter. */
  predicate Over(f: EchoLine, g: EchoLine, from: int) {
    && f.l != [] && |f.l| == |f.r| == |g.l| == |g.r|
    && 0.0 <= g.darkL <= f.darkL && 0.0 <= g.darkR <= f.darkR && 0.0 < f.darkL && 0.0 < f.darkR
    && (forall i :: 0 <= i < |f.l| ==> 0.0 <= g.l[i] <= f.l[i] && 0.0 <= g.r[i] <= f.r[i])
    && forall i :: from <= i < |f.l| && 0 <= i ==> g.l[i] < f.l[i] && g.r[i] < f.r[i]
  }

  lemma DarkGrows(x: real, y: real, u: real, v: real)
    requires 0.0 <= x <= u && 0.0 <= y <= v && 0.0 < v
    ensures 0.0 <= Soft(x, y, DARK) <= Darker(v, u) && 0.0 < Darker(v, u)
  {
  }

  lemma BackGrows(x: real, y: real, fb: real, more: real)
    requires 0.0 <= x <= y && 0.0 < y && 0.0 <= fb <= more && fb <= ECHO_MAX
    ensures 0.0 <= Back(x, fb) && Back(x, fb) <= Back(y, more)
    ensures fb < more ==> Back(x, fb) < Back(y, more)
  {
    NonNegative(x, fb);
    NonNegative(y - x, fb);
    NonNegative(y, more - fb);
    MoreOf(x, y, fb, more);
  }

  lemma MoreOf(x: real, y: real, fb: real, more: real)
    requires 0.0 <= x <= y && 0.0 < y && 0.0 <= fb <= ECHO_MAX
    ensures fb < more ==> Back(x, fb) < Back(y, more)
  {
    hide Back;
    if fb < more {
      BackLess(x, y, fb);
      BackPositive(y, more - fb);
      BackSum(y, fb, more - fb);
    }
  }

  lemma BackPositive(x: real, fb: real)
    requires 0.0 < x && 0.0 < fb
    ensures 0.0 < Back(x, fb)
  {
  }

  lemma BackSum(x: real, a: real, b: real)
    ensures Back(x, a + b) == Back(x, a) + Back(x, b)
  {
  }

  /** Silence on both sides: where the feedback is strictly more, what is written is too. */
  lemma OverNext(f: EchoLine, g: EchoLine, from: int, more: real, fb: real)
    requires Over(f, g, from) && 0.0 <= fb <= more && fb <= ECHO_MAX && (from < |f.l| ==> fb < more)
    ensures f.r != [] && g.l != [] && g.r != []
    ensures Over(Echoing(f, QUIET, more), Echoing(g, QUIET, fb), if fb < more then from - 1 else |f.l|)
  {
    hide Soft, Back, Darker;
    QuietWrites(g, fb);
    DarkGrows(g.r[0], g.darkL, f.r[0], f.darkL);
    DarkGrows(g.l[0], g.darkR, f.l[0], f.darkR);
    BackGrows(Soft(g.r[0], g.darkL, DARK), Darker(f.darkL, f.r[0]), fb, more);
    BackGrows(Soft(g.l[0], g.darkR, DARK), Darker(f.darkR, f.l[0]), fb, more);
    NoInput(Back(Darker(f.darkL, f.r[0]), more));
  }
}
