/**
 What a style's room does to sound, as delay lines: a tape that wobbles, an echo
 that darkens as it repeats, and a reverb of eight combs and four allpasses a side.
*/
module Reverb {
  import opened Reals
  import opened Comb

  const RATE := 48000
  const WOB := 2048
  const ECHO_MAX := 0.78
  const COMBS := 8
  const ALLS := 4

  datatype Style = Style(feedback: real, damping: real, wet: real, echoLen: nat, echoFeedback: real, echoMix: real)

  const ROOMS: seq<Style> := [
    Style(0.84, 0.25, 1.0, 21600, 0.45, 0.5),
    Style(0.76, 0.45, 0.6, 0, 0.0, 0.0),
    Style(0.78, 0.50, 0.7, 8640, 0.25, 0.35),
    Style(0.88, 0.20, 1.1, 28800, 0.35, 0.3),
    Style(0.86, 0.60, 0.9, 26400, 0.3, 0.3),
    Style(0.86, 0.55, 0.85, 16875, 0.45, 0.35),
    Style(0.74, 0.50, 0.45, 0, 0.0, 0.0)]

  predicate Sane(s: Style) {
    && 0.0 <= s.feedback <= 0.88 && 0.0 <= s.damping <= 1.0 && 0.0 <= s.wet <= 1.1
    && 0.0 <= s.echoFeedback <= 0.45 && 0.0 <= s.echoMix <= 0.5
  }

  lemma EveryRoomIsSane(i: nat)
    requires i < |ROOMS|
    ensures Sane(ROOMS[i])
  {
  }

  datatype Stereo = Stereo(l: real, r: real) {
    predicate Under(m: real) {
      Mag(l) <= m && Mag(r) <= m
    }
  }

  // ---- the tape ----

  /** What is on the tape, oldest first. */
  datatype Tape = Tape(l: seq<real>, r: seq<real>)

  function Recorded(t: Tape, x: Stereo): Tape
    requires t.l != [] && t.r != []
  {
    Tape(t.l[1..] + [x.l], t.r[1..] + [x.r])
  }

  /** How many samples behind the newest the tape is read: 240, more or less. */
  function Behind(wobble: real, sine: real): (b: real)
    requires 0.0 <= wobble <= 1.0 && Mag(sine) <= 1.0
    ensures 96.0 <= b <= 384.0
  {
    Product(wobble, sine, 1.0);
    240.0 + 144.0 * (wobble * sine)
  }

  function Blend(x: real, y: real, f: real): real {
    x * (1.0 - f) + y * f
  }

  function Ceiling(b: real): int {
    -((-b).Floor)
  }

  /** The line `b` samples before its newest, between two samples in proportion. */
  function ReadBack(cells: seq<real>, b: real): real
    requires 0.0 < b && Ceiling(b) < |cells|
  {
    var c := Ceiling(b);
    Blend(cells[|cells| - 1 - c], cells[|cells| - c], c as real - b)
  }

  function Played(t: Tape, b: real): Stereo
    requires |t.l| == |t.r| == WOB && 96.0 <= b <= 384.0
  {
    Stereo(ReadBack(t.l, b), ReadBack(t.r, b))
  }

  lemma BlendBounded(x: real, y: real, f: real, m: real)
    requires Mag(x) <= m && Mag(y) <= m && 0.0 <= f <= 1.0
    ensures Mag(Blend(x, y, f)) <= m
  {
    Mean(f, y, x, m);
    assert x + f * (y - x) == Blend(x, y, f);
  }

  predicate TapeUnder(t: Tape, m: real) {
    |t.l| == |t.r| == WOB && Within(t.l, m) && Within(t.r, m)
  }

  lemma TapeBounded(t: Tape, x: Stereo, b: real, m: real)
    requires TapeUnder(t, m) && x.Under(m) && 96.0 <= b <= 384.0
    ensures TapeUnder(Recorded(t, x), m) && Played(Recorded(t, x), b).Under(m)
  {
    hide Mag, Blend;
    var u, c := Recorded(t, x), Ceiling(b);
    BlendBounded(u.l[WOB - 1 - c], u.l[WOB - c], c as real - b, m);
    BlendBounded(u.r[WOB - 1 - c], u.r[WOB - c], c as real - b, m);
  }

  // ---- the echo ----

  /** Both lines, oldest first, and what is left of each after its low-pass. */
  datatype EchoLine = EchoLine(l: seq<real>, r: seq<real>, darkL: real, darkR: real)

  function Darker(dark: real, x: real): real {
    dark + 0.25 * (x - dark)
  }

  /** Each line is fed from the other's end; what comes in goes to the left one only. */
  function Echoing(e: EchoLine, x: Stereo, feedback: real): (f: EchoLine)
    requires e.l != [] && e.r != []
    ensures |f.l| == |e.l| && |f.r| == |e.r|
  {
    var darkL, darkR := Darker(e.darkL, e.r[0]), Darker(e.darkR, e.l[0]);
    EchoLine(e.l[1..] + [0.5 * (x.l + x.r) * 0.6 + Back(darkL, feedback)],
             e.r[1..] + [Back(darkR, feedback)], darkL, darkR)
  }

  function Echoed(e: EchoLine, x: Stereo, mix: real): Stereo
    requires e.l != [] && e.r != []
  {
    Stereo(x.l + Back(e.l[0], mix), x.r + Back(e.r[0], mix))
  }

  /** Room for 0.6 of the input under the highest feedback. */
  function EchoBound(m: real): real {
    30.0 * m / 11.0
  }

  predicate EchoUnder(e: EchoLine, m: real) {
    && e.l != [] && e.r != [] && Within(e.l, EchoBound(m)) && Within(e.r, EchoBound(m))
    && Mag(e.darkL) <= EchoBound(m) && Mag(e.darkR) <= EchoBound(m)
  }

  lemma EchoBounded(e: EchoLine, x: Stereo, feedback: real, mix: real, m: real)
    requires EchoUnder(e, m) && x.Under(m) && 0.0 <= feedback <= ECHO_MAX && 0.0 <= mix <= 0.5
    ensures EchoUnder(Echoing(e, x, feedback), m)
    ensures Echoed(e, x, mix).Under(26.0 * m / 11.0)
  {
    hide Mag, EchoBound;
    Mean(0.25, e.r[0], e.darkL, EchoBound(m));
    Mean(0.25, e.l[0], e.darkR, EchoBound(m));
    EchoFits(x.l, x.r, Darker(e.darkL, e.r[0]), feedback, m);
    EchoFits(0.0, 0.0, Darker(e.darkR, e.l[0]), feedback, m);
    EchoHeard(x.l, e.l[0], mix, m);
    EchoHeard(x.r, e.r[0], mix, m);
  }

  lemma EchoFits(inL: real, inR: real, dark: real, feedback: real, m: real)
    requires (Mag(inL) <= m && Mag(inR) <= m) || (inL == 0.0 && inR == 0.0)
    requires Mag(dark) <= EchoBound(m) && 0.0 <= feedback <= ECHO_MAX
    ensures Mag(0.5 * (inL + inR) * 0.6 + Back(dark, feedback)) <= EchoBound(m)
    ensures Mag(Back(dark, feedback)) <= EchoBound(m)
  {
    BackBounded(dark, feedback, EchoBound(m));
    NonNegative(EchoBound(m), ECHO_MAX - feedback);
    assert Back(EchoBound(m), feedback) <= 0.78 * EchoBound(m) by { hide EchoBound; }
  }

  lemma EchoHeard(input: real, echo: real, mix: real, m: real)
    requires Mag(input) <= m && Mag(echo) <= EchoBound(m) && 0.0 <= mix <= 0.5
    ensures Mag(input + Back(echo, mix)) <= 26.0 * m / 11.0
  {
    BackBounded(echo, mix, EchoBound(m));
    NonNegative(EchoBound(m), 0.5 - mix);
    assert Back(EchoBound(m), mix) <= 0.5 * EchoBound(m) by { hide EchoBound; }
  }

  /** Techno: tasks waiting on IO make the echo hang, a tenth of the way at each tick. */
  function Hung(feedback: real, ioWait: nat): real {
    feedback + 0.1 * (0.45 + 0.33 * ioWait as real / 15.0 - feedback)
  }

  /** The feedback that IO waiting asks for. */
  function Target(ioWait: nat): real {
    0.45 + 0.33 * ioWait as real / 15.0
  }

  /** The feedback never leaves the range it is asked for, and nine tenths of its distance stay. */
  lemma HangsBetween(feedback: real, ioWait: nat)
    requires 0.45 <= feedback <= ECHO_MAX && ioWait <= 15
    ensures 0.45 <= Hung(feedback, ioWait) <= ECHO_MAX
    ensures Hung(feedback, ioWait) - Target(ioWait) == 0.9 * (feedback - Target(ioWait))
  {
  }

  // ---- one side of the reverb ----

  /** Combs side by side, then allpasses one after another. */
  datatype Side = Side(combs: seq<Delay>, alls: seq<Delay>)

  predicate Held(ds: seq<Delay>) {
    forall i :: 0 <= i < |ds| ==> ds[i].cells != []
  }

  function CombSum(combs: seq<Delay>, n: nat): real
    requires Held(combs) && n <= |combs|
  {
    if n == 0 then 0.0 else CombSum(combs, n - 1) + combs[n - 1].cells[0]
  }

  function CombsNext(combs: seq<Delay>, input: real, style: Style): (ds: seq<Delay>)
    requires Held(combs)
    ensures |ds| == |combs| && Held(ds)
  {
    seq(|combs|, i requires 0 <= i < |combs| => Next(combs[i], input, style.feedback, style.damping))
  }

  function AllNext(s: Delay, input: real): (t: Delay)
    requires s.cells != []
    ensures |t.cells| == |s.cells|
  {
    Delay(s.cells[1..] + [input + s.cells[0] * 0.5], s.store)
  }

  /** What comes through the first `n` allpasses. */
  function Through(alls: seq<Delay>, n: nat, input: real): real
    requires Held(alls) && n <= |alls|
  {
    if n == 0 then input else alls[n - 1].cells[0] - Through(alls, n - 1, input)
  }

  function AllsNext(alls: seq<Delay>, input: real): (ds: seq<Delay>)
    requires Held(alls)
    ensures |ds| == |alls| && Held(ds)
  {
    seq(|alls|, i requires 0 <= i < |alls| => AllNext(alls[i], Through(alls, i, input)))
  }

  predicate Formed(s: Side) {
    |s.combs| == COMBS && |s.alls| == ALLS && Held(s.combs) && Held(s.alls)
  }

  function SideNext(s: Side, input: real, style: Style): (t: Side)
    requires Formed(s)
    ensures Formed(t)
  {
    Side(CombsNext(s.combs, input, style), AllsNext(s.alls, CombSum(s.combs, COMBS)))
  }

  function SideOut(s: Side): real
    requires Formed(s)
  {
    Through(s.alls, ALLS, CombSum(s.combs, COMBS))
  }

  /** What a comb may hold: its input fits under the highest feedback. */
  function CombBound(m: real): real {
    13.0 * m / 22.0
  }

  /** What comes out of `k` allpasses after eight combs. */
  function AfterAllpass(m: real, k: nat): (w: real) {
    var times := if k == 0 then 1.0 else if k == 1 then 3.0 else if k == 2 then 9.0 else if k == 3 then 27.0 else 81.0;
    times * (52.0 * m / 11.0)
  }

  lemma AllpassTriples(m: real, k: nat)
    requires k < 4
    ensures AfterAllpass(m, k + 1) == 3.0 * AfterAllpass(m, k)
  {
  }

  predicate CombsUnder(combs: seq<Delay>, m: real) {
    forall i :: 0 <= i < |combs| ==> Bounded(combs[i], CombBound(m))
  }

  predicate AllsUnder(alls: seq<Delay>, m: real) {
    forall i :: 0 <= i < |alls| ==> Within(alls[i].cells, 2.0 * AfterAllpass(m, i))
  }

  predicate SideUnder(s: Side, m: real) {
    Formed(s) && CombsUnder(s.combs, m) && AllsUnder(s.alls, m)
  }

  function Times(k: nat, m: real): real {
    k as real * (13.0 * m / 22.0)
  }

  lemma OneMore(w: real, a: real, k: nat, m: real)
    requires Mag(w) <= Times(k, m) && Mag(a) <= CombBound(m)
    ensures Mag(w + a) <= Times(k + 1, m)
  {
    assert (k + 1) as real == k as real + 1.0;
  }

  lemma {:induction false} CombSumBounded(combs: seq<Delay>, n: nat, m: real)
    requires Held(combs) && n <= |combs| && CombsUnder(combs, m)
    ensures Mag(CombSum(combs, n)) <= Times(n, m)
  {
    if n > 0 {
      hide Mag, Times, CombBound;
      CombSumBounded(combs, n - 1, m);
      assert Bounded(combs[n - 1], CombBound(m));
      OneMore(CombSum(combs, n - 1), combs[n - 1].cells[0], n - 1, m);
    }
  }

  lemma CombFits(s: Delay, input: real, style: Style, m: real)
    requires s.cells != [] && Sane(style) && Bounded(s, CombBound(m)) && Mag(input) <= 0.78 * m / 11.0
    ensures Bounded(Next(s, input, style.feedback, style.damping), CombBound(m))
  {
    NonNegative(CombBound(m), 0.88 - style.feedback);
    assert Back(CombBound(m), style.feedback) <= 0.88 * CombBound(m) by { hide CombBound; }
    StaysBounded(s, input, style.feedback, style.damping, 0.78 * m / 11.0, CombBound(m));
  }

  lemma {:induction false} ThroughBounded(alls: seq<Delay>, n: nat, input: real, m: real)
    requires Held(alls) && n <= |alls| <= ALLS && AllsUnder(alls, m) && Mag(input) <= AfterAllpass(m, 0)
    ensures Mag(Through(alls, n, input)) <= AfterAllpass(m, n)
  {
    if n > 0 {
      hide Mag, AfterAllpass;
      ThroughBounded(alls, n - 1, input, m);
      AllpassTriples(m, n - 1);
      AllpassBounded(alls[n - 1].cells, Through(alls, n - 1, input), AfterAllpass(m, n - 1));
    }
  }

  lemma SideBounded(s: Side, input: real, style: Style, m: real)
    requires SideUnder(s, m) && Sane(style) && Mag(input) <= 0.78 * m / 11.0
    ensures SideUnder(SideNext(s, input, style), m)
    ensures Mag(SideOut(s)) <= AfterAllpass(m, ALLS)
  {
    hide Mag, Bounded, Within, CombBound, AfterAllpass;
    forall i | 0 <= i < COMBS
      ensures Bounded(CombsNext(s.combs, input, style)[i], CombBound(m))
    {
      CombFits(s.combs[i], input, style, m);
    }
    var sum := CombSum(s.combs, COMBS);
    CombSumBounded(s.combs, COMBS, m);
    EightCombs(m);
    forall i | 0 <= i < ALLS
      ensures Within(AllsNext(s.alls, sum)[i].cells, 2.0 * AfterAllpass(m, i))
    {
      ThroughBounded(s.alls, i, sum, m);
      AllpassBounded(s.alls[i].cells, Through(s.alls, i, sum), AfterAllpass(m, i));
    }
    ThroughBounded(s.alls, ALLS, sum, m);
  }

  lemma EightCombs(m: real)
    ensures Times(COMBS, m) == AfterAllpass(m, 0)
  {
  }

  /** Freeverb's delays, tuned at 44.1 kHz, the right side 23 samples longer. */
  const TUNES: seq<nat> := [1116, 1188, 1277, 1356, 1422, 1491, 1557, 1617, 556, 441, 341, 225]

  function Length(tune: nat, side: nat): (n: nat)
    requires tune < 12 && side < 2
    ensures 0 < n
    ensures if tune < COMBS then 1214 <= n <= 1785 else n <= 630
  {
    (TUNES[tune] + 23 * side) * RATE / 44100
  }

  /** Each delay has the length its tune gives it. */
  predicate Tuned(s: Side, side: nat)
    requires side < 2
  {
    && (forall i :: 0 <= i < |s.combs| < 9 ==> |s.combs[i].cells| == Length(i, side))
    && (forall i :: 0 <= i < |s.alls| < 5 ==> |s.alls[i].cells| == Length(COMBS + i, side))
  }

  // ---- the whole room ----

  datatype State = State(tape: Tape, echo: EchoLine, left: Side, right: Side, feedback: real, quiet: nat)

  /** One sample in, the tape's wobble, and the sine of its phase. */
  datatype Input = Input(x: Stereo, wobble: real, sine: real) {
    predicate Sane() {
      0.0 <= wobble <= 1.0 && Mag(sine) <= 1.0
    }
  }

  predicate Shaped(s: State) {
    && |s.tape.l| == |s.tape.r| == WOB && s.echo.l != [] && s.echo.r != [] && Formed(s.left) && Formed(s.right)
  }

  predicate Audible(x: Stereo) {
    Mag(x.l) + Mag(x.r) > 0.000001
  }

  /** Six seconds after the last sound went in the room is left alone. */
  predicate Rests(s: State, x: Stereo) {
    !Audible(x) && s.quiet >= RATE * 6
  }

  function AfterTape(s: State, i: Input): Stereo
    requires Shaped(s) && i.Sane()
  {
    if i.wobble > 0.0 then Played(Recorded(s.tape, i.x), Behind(i.wobble, i.sine)) else i.x
  }

  function AfterEcho(style: Style, s: State, x: Stereo): Stereo
    requires Shaped(s)
  {
    if style.echoLen > 0 then Echoed(s.echo, x, style.echoMix) else x
  }

  function Mono(x: Stereo): real {
    (x.l + x.r) * 0.015
  }

  /** What the room holds after one more sample. */
  function RoomNext(style: Style, s: State, i: Input): (t: State)
    requires Shaped(s) && i.Sane()
    ensures Shaped(t) && t.feedback == s.feedback
  {
    if Rests(s, i.x) then s else Passed(style, s, i).(quiet := if Audible(i.x) then 0 else s.quiet + 1)
  }

  /** The sample through all of it, while the room does not rest. */
  function Passed(style: Style, s: State, i: Input): (t: State)
    requires Shaped(s) && i.Sane()
    ensures Shaped(t) && t.feedback == s.feedback
  {
    var taped := AfterTape(s, i);
    var input := Mono(AfterEcho(style, s, taped));
    s.(tape := if i.wobble > 0.0 then Recorded(s.tape, i.x) else s.tape,
       echo := if style.echoLen > 0 then Echoing(s.echo, taped, s.feedback) else s.echo,
       left := SideNext(s.left, input, style), right := SideNext(s.right, input, style))
  }

  function Sounded(style: Style, s: State, i: Input): Stereo
    requires Shaped(s) && i.Sane()
  {
    var x := AfterEcho(style, s, AfterTape(s, i));
    Stereo(x.l + Back(SideOut(s.left), style.wet), x.r + Back(SideOut(s.right), style.wet))
  }

  /** How long it has been quiet changes nothing else. */
  lemma QuietApart(style: Style, s: State, q: nat, i: Input)
    requires Shaped(s) && i.Sane()
    ensures Passed(style, s.(quiet := q), i) == Passed(style, s, i).(quiet := q)
    ensures Sounded(style, s.(quiet := q), i) == Sounded(style, s, i)
  {
    hide Played, Recorded, Echoing, Echoed, SideNext, SideOut, Mag, Back, Behind, Mono;
  }

  function RoomOut(style: Style, s: State, i: Input): Stereo
    requires Shaped(s) && i.Sane()
  {
    if Rests(s, i.x) then i.x else Sounded(style, s, i)
  }

  /** The lengths a room of the style is built with. */
  predicate Built(style: Style, s: State) {
    && Shaped(s) && Tuned(s.left, 0) && Tuned(s.right, 1)
    && (style.echoLen > 0 ==> |s.echo.l| == |s.echo.r| == style.echoLen)
  }

  /** A room as it is before anything sounds in it. */
  predicate Empty(style: Style, s: State) {
    Built(style, s) && Under(s, 0.0) && s.feedback == style.echoFeedback && s.quiet == 0
  }

  function Zeros(n: nat): (cells: seq<real>)
    ensures |cells| == n
  {
    seq(n, _ => 0.0)
  }

  function EmptySide(side: nat): (s: Side)
    requires side < 2
    ensures Formed(s) && Tuned(s, side)
  {
    Side(EmptyLines(0, COMBS, side), EmptyLines(COMBS, ALLS, side))
  }

  /** Silent delays of the tunes `from` on. */
  function EmptyLines(from: nat, count: nat, side: nat): (ds: seq<Delay>)
    requires from + count <= 12 && side < 2
    ensures |ds| == count && Held(ds)
    ensures forall i :: 0 <= i < count ==> ds[i] == Delay(Zeros(Length(from + i, side)), 0.0)
  {
    if count == 0 then []
    else EmptyLines(from, count - 1, side) + [Delay(Zeros(Length(from + count - 1, side)), 0.0)]
  }

  function NewState(style: Style): State {
    var n := if style.echoLen > 0 then style.echoLen else 1;
    State(Tape(Zeros(WOB), Zeros(WOB)), EchoLine(Zeros(n), Zeros(n), 0.0, 0.0), EmptySide(0), EmptySide(1),
          style.echoFeedback, 0)
  }

  lemma NewIsEmpty(style: Style)
    requires Sane(style)
    ensures Empty(style, NewState(style))
  {
    hide SideUnder, Tuned, Zeros, EmptySide;
    EmptyUnder(0);
    EmptyUnder(1);
    ZerosWithin(WOB, 0.0);
    ZerosWithin(if style.echoLen > 0 then style.echoLen else 1, EchoBound(0.0));
  }

  lemma ZerosWithin(n: nat, b: real)
    requires 0.0 <= b
    ensures Within(Zeros(n), b)
  {
  }

  lemma EmptyUnder(side: nat)
    requires side < 2
    ensures SideUnder(EmptySide(side), 0.0)
  {
    hide Length;
  }

  /** Every cell of every line is within what inputs within `m` can put there. */
  predicate Under(s: State, m: real) {
    && 0.0 <= m && TapeUnder(s.tape, m) && EchoUnder(s.echo, m) && SideUnder(s.left, m) && SideUnder(s.right, m)
    && 0.0 <= s.feedback <= ECHO_MAX
  }

  lemma WetBounded(input: real, wet: real, gain: real, m: real)
    requires 0.0 <= m && 0.0 <= gain <= 1.1 && Mag(input) <= 26.0 * m / 11.0 && Mag(wet) <= AfterAllpass(m, 4)
    ensures Mag(input + Back(wet, gain)) <= 424.0 * m
  {
    BackBounded(wet, gain, AfterAllpass(m, 4));
    NonNegative(AfterAllpass(m, 4), 1.1 - gain);
    assert Back(AfterAllpass(m, 4), gain) <= 1.1 * AfterAllpass(m, 4) by { hide AfterAllpass; }
  }

  lemma Grows(m: real)
    requires 0.0 <= m
    ensures m <= 26.0 * m / 11.0 && 26.0 * m / 11.0 <= 424.0 * m
  {
  }

  lemma MonoBounded(x: Stereo, m: real)
    requires x.Under(26.0 * m / 11.0)
    ensures Mag(Mono(x)) <= 0.78 * m / 11.0
  {
  }

  lemma StereoMore(x: Stereo, a: real, b: real)
    requires x.Under(a) && a <= b
    ensures x.Under(b)
  {
  }

  /** Inputs within `m` keep everything the room holds within its bounds, and what comes out within `424 * m`. */
  lemma RoomBounded(style: Style, s: State, i: Input, m: real)
    requires Sane(style) && i.Sane() && Under(s, m) && i.x.Under(m)
    ensures Shaped(s) && Under(RoomNext(style, s, i), m) && RoomOut(style, s, i).Under(424.0 * m)
  {
    hide TapeUnder, EchoUnder, SideUnder, Recorded, Played, Echoing, Echoed, SideNext, SideOut, Mag, Mono, Formed;
    hide Behind, AfterAllpass;
    UnderShaped(s, m);
    Grows(m);
    if Rests(s, i.x) {
      StereoMore(i.x, m, 424.0 * m);
    } else {
      TapeBounded(s.tape, i.x, Behind(i.wobble, i.sine), m);
      var taped := AfterTape(s, i);
      EchoBounded(s.echo, taped, s.feedback, style.echoMix, m);
      var x := AfterEcho(style, s, taped);
      StereoMore(taped, m, 26.0 * m / 11.0);
      MonoBounded(x, m);
      SideBounded(s.left, Mono(x), style, m);
      SideBounded(s.right, Mono(x), style, m);
      WetBounded(x.l, SideOut(s.left), style.wet, m);
      WetBounded(x.r, SideOut(s.right), style.wet, m);
    }
  }

  lemma UnderShaped(s: State, m: real)
    requires Under(s, m)
    ensures Shaped(s)
  {
  }

  /** What happens to a room: a sample, or a tick that moves the echo's feedback. */
  datatype Moment = Sample(i: Input) | Hang(ioWait: nat) {
    predicate Sane() {
      match this
      case Sample(i) => i.Sane()
      case Hang(ioWait) => ioWait <= 15
    }

    predicate Under(m: real) {
      Sample? ==> i.x.Under(m)
    }
  }

  function At(style: Style, s: State, mo: Moment): (t: State)
    requires Shaped(s) && mo.Sane()
    ensures Shaped(t)
  {
    match mo
    case Sample(i) => RoomNext(style, s, i)
    case Hang(ioWait) => s.(feedback := Hung(s.feedback, ioWait))
  }

  function RoomRun(style: Style, s: State, ms: seq<Moment>): (t: State)
    requires Shaped(s) && forall k :: 0 <= k < |ms| ==> ms[k].Sane()
    ensures Shaped(t)
  {
    if ms == [] then s else At(style, RoomRun(style, s, ms[..|ms| - 1]), ms[|ms| - 1])
  }

  /** What was heard over the run. */
  function Outs(style: Style, s: State, ms: seq<Moment>): seq<Stereo>
    requires Shaped(s) && forall k :: 0 <= k < |ms| ==> ms[k].Sane()
  {
    if ms == [] then []
    else
      var n := |ms| - 1;
      assert ms[n].Sane();
      Outs(style, s, ms[..n]) + if ms[n].Sample? then [RoomOut(style, RoomRun(style, s, ms[..n]), ms[n].i)] else []
  }

  /** Over any run: whatever went in, so long as it was within `m`, and however the echo hung. */
  lemma {:induction false} RunBounded(style: Style, s: State, ms: seq<Moment>, m: real)
    requires Sane(style) && Under(s, m) && forall k :: 0 <= k < |ms| ==> ms[k].Sane() && ms[k].Under(m)
    ensures Shaped(s) && Under(RoomRun(style, s, ms), m)
    ensures forall k :: 0 <= k < |Outs(style, s, ms)| ==> Outs(style, s, ms)[k].Under(424.0 * m)
    ensures 0.45 <= s.feedback ==> 0.45 <= RoomRun(style, s, ms).feedback
  {
    hide Under, Shaped, Stereo.Under, RoomNext, RoomOut, Sane;
    UnderShaped(s, m);
    if ms != [] {
      var n := |ms| - 1;
      var was := RoomRun(style, s, ms[..n]);
      RunBounded(style, s, ms[..n], m);
      assert ms[n].Sane() && ms[n].Under(m);
      if ms[n].Sample? {
        RoomBounded(style, was, ms[n].i, m);
      } else {
        HangBounded(was, ms[n].ioWait, m);
      }
    }
  }

  lemma HangBounded(s: State, ioWait: nat, m: real)
    requires Under(s, m) && ioWait <= 15
    ensures Under(s.(feedback := Hung(s.feedback, ioWait)), m)
    ensures 0.45 <= s.feedback ==> 0.45 <= Hung(s.feedback, ioWait)
  {
    hide TapeUnder, EchoUnder, SideUnder;
  }

  /** Any room, from nothing in it: the bounds hold whatever its size. */
  lemma NothingIsUnder(s: State, m: real)
    requires Under(s, 0.0) && 0.0 <= m
    ensures Under(s, m)
  {
    hide Mag;
    Loose(s.tape.l, 0.0, m);
    Loose(s.tape.r, 0.0, m);
    Loose(s.echo.l, EchoBound(0.0), EchoBound(m));
    Loose(s.echo.r, EchoBound(0.0), EchoBound(m));
    SideLoose(s.left, m);
    SideLoose(s.right, m);
  }

  lemma Loose(cells: seq<real>, a: real, b: real)
    requires Within(cells, a) && a <= b
    ensures Within(cells, b)
  {
  }

  lemma SideLoose(s: Side, m: real)
    requires SideUnder(s, 0.0) && 0.0 <= m
    ensures SideUnder(s, m)
  {
    forall i | 0 <= i < COMBS
      ensures Bounded(s.combs[i], CombBound(m))
    {
      Loosened(s.combs[i], CombBound(0.0), CombBound(m));
    }
    forall i | 0 <= i < ALLS
      ensures Within(s.alls[i].cells, 2.0 * AfterAllpass(m, i))
    {
      Loose(s.alls[i].cells, 2.0 * AfterAllpass(0.0, i), 2.0 * AfterAllpass(m, i));
    }
  }
}
