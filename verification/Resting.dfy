/**
 Six seconds after the last audible sound the room is left alone with what it holds.
 How much that is, in every style's room, and when it is not little.
*/
module Resting {
  import opened Arithmetic
  import opened Reals
  import opened Comb
  import opened Reverb
  import opened Envelope
  import opened Rates

  const EPS := 0.000001

  /** Samples after which a tape that plays holds nothing older it could still play. */
  const TAPED := 384

  // ---- one sample ----

  predicate Faded(style: Style, s: State, top: real, r: real, e: real) {
    && Shaped(s) && 0.0 <= s.feedback <= ECHO_MAX
    && (style.echoLen > 0 ==> EchoFades(s.echo, top, r, e) && |s.echo.l| == style.echoLen)
    && SideFades(s.left, top, r, e) && SideFades(s.right, top, r, e)
  }

  /** A rate no faster than the room dies away with a feedback of `fb` in its echo. */
  predicate Slower(style: Style, fb: real, r: real, keep: real) {
    Lasts(r) && (style.echoLen > 0 ==> fb * LAG <= keep <= Pow(r, style.echoLen))
  }

  predicate Damped(style: Style) {
    Sane(style) && style.damping <= 0.6
  }

  lemma EveryRoomIsDamped(room: nat)
    requires room < |ROOMS|
    ensures Damped(ROOMS[room])
  {
  }

  /** What a room gives out under an envelope, over what inaudible input alone may bring. */
  function Heard(top: real, e: real): real {
    230.0 * top + 424.0 * e
  }

  lemma SlowerStill(style: Style, a: real, b: real, r: real, keep: real)
    requires Slower(style, b, r, keep) && a <= b
    ensures Slower(style, a, r, keep)
  {
  }

  lemma PassedFades(style: Style, s: State, i: Input, top: real, r: real, e: real, keep: real)
    requires Faded(style, s, top, r, e) && i.Sane() && AfterTape(s, i).Under(e) && 0.0 <= top && 0.0 <= e
    requires Damped(style) && Slower(style, s.feedback, r, keep)
    ensures Faded(style, Passed(style, s, i), Down(top, r), r, e)
    ensures Sounded(style, s, i).Under(Heard(top, e))
  {
    hide EchoFades, SideFades, Recorded, Played, Echoing, Echoed, SideNext, SideOut, Mag, Mono, Formed, Down, Into;
    hide Behind, AfterAllpass, Pow, Slow;
    var taped := AfterTape(s, i);
    if style.echoLen > 0 {
      EchoShape(s.echo, top, r, e);
      EchoNextFades(s.echo, taped, s.feedback, style.echoMix, top, r, e, keep);
    } else {
      NoEcho(taped, top, e);
    }
    var x := AfterEcho(style, s, taped);
    MonoFades(x, top, e);
    SideNextFades(s.left, Mono(x), style, top, r, e);
    SideNextFades(s.right, Mono(x), style, top, r, e);
    WetFades(x.l, SideOut(s.left), style.wet, top, e);
    WetFades(x.r, SideOut(s.right), style.wet, top, e);
    SlowEnough(r);
  }

  lemma SlowEnough(r: real)
    requires Lasts(r)
    ensures Slow(r)
  {
  }

  lemma EchoShape(f: EchoLine, top: real, r: real, e: real)
    requires EchoFades(f, top, r, e)
    ensures f.l != [] && |f.l| == |f.r|
  {
  }

  lemma NoEcho(x: Stereo, top: real, e: real)
    requires x.Under(e) && 0.0 <= top && 0.0 <= e
    ensures x.Under(0.5 * top + 26.0 * e / 11.0)
  {
  }

  lemma MonoFades(x: Stereo, top: real, e: real)
    requires x.Under(0.5 * top + 26.0 * e / 11.0)
    ensures Mag(Mono(x)) <= 0.015 * top + 0.78 * e / 11.0
  {
  }

  lemma WetFades(input: real, wet: real, gain: real, top: real, e: real)
    requires 0.0 <= top && 0.0 <= e && 0.0 <= gain <= 1.1
    requires Mag(input) <= 0.5 * top + 26.0 * e / 11.0 && Mag(wet) <= Into(ALLS, top) + AfterAllpass(e, ALLS)
    ensures Mag(input + Back(wet, gain)) <= Heard(top, e)
  {
    var b := Into(ALLS, top) + AfterAllpass(e, ALLS);
    assert b == 206.868704 * top + 81.0 * (52.0 * e / 11.0);
    WetAtMost(wet, gain, b);
    Triangle(input, Back(wet, gain), 0.5 * top + 26.0 * e / 11.0, 1.1 * b);
  }

  lemma WetAtMost(wet: real, gain: real, b: real)
    requires Mag(wet) <= b && 0.0 <= gain <= 1.1
    ensures Mag(Back(wet, gain)) <= 1.1 * b
  {
    BackBounded(wet, gain, b);
    NonNegative(1.1 - gain, b);
  }

  // ---- where the envelope starts ----

  lemma BuiltLengths(style: Style, s: State)
    requires Built(style, s)
    ensures Lengths(s.left) && Lengths(s.right)
  {
  }

  lemma SideStarts(s: Side, m: real, top: real, r: real, e: real)
    requires SideUnder(s, m) && Lengths(s) && Lasts(r) && 0.0 <= e && 0.0 <= m && EchoBound(m) <= top
    ensures SideFades(s, top, r, e)
  {
    hide Fading, Lasts, Within;
    forall i | 0 <= i < COMBS
      ensures CombFades(s.combs[i], top, r, e)
    {
      CombStarts(s.combs[i], m, top, r, e);
    }
    forall i | 0 <= i < ALLS
      ensures Fading(s.alls[i].cells, AllTop(i, top), r, 2.0 * AfterAllpass(e, i))
    {
      AllStarts(s.alls[i].cells, i, m, top, r, e);
    }
  }

  lemma CombStarts(s: Delay, m: real, top: real, r: real, e: real)
    requires Bounded(s, CombBound(m)) && |s.cells| <= 1785 && Lasts(r) && 0.0 <= e && 0.0 <= m && EchoBound(m) <= top
    ensures CombFades(s, top, r, e)
  {
    hide Fading, Within, Pow, Tail;
    LastsLonger(r, |s.cells|);
    KeptTail(COMB * top, r, |s.cells|, 0.935);
    StartFading(s.cells, CombBound(m), COMB * top, r, CombBound(e));
  }

  lemma AllStarts(cells: seq<real>, k: nat, m: real, top: real, r: real, e: real)
    requires k < ALLS && Within(cells, 2.0 * AfterAllpass(m, k)) && |cells| <= 630
    requires Lasts(r) && 0.0 <= e && 0.0 <= m && EchoBound(m) <= top
    ensures Fading(cells, AllTop(k, top), r, 2.0 * AfterAllpass(e, k))
  {
    hide Fading, Within, Pow, Tail, AllTop, Lasts;
    AllTopFits(k, m, top, e);
    LastsLonger(r, |cells|);
    KeptTail(AllTop(k, top), r, |cells|, 0.977);
    AtMostOne(r);
    StartFading(cells, 2.0 * AfterAllpass(m, k), AllTop(k, top), r, 2.0 * AfterAllpass(e, k));
  }

  lemma AtMostOne(r: real)
    requires Lasts(r)
    ensures 0.0 <= r <= 1.0
  {
  }

  lemma AllTopFits(k: nat, m: real, top: real, e: real)
    requires k < ALLS && 0.0 <= e && 0.0 <= m && EchoBound(m) <= top
    ensures 0.0 <= AllTop(k, top) && 2.0 * AfterAllpass(m, k) <= 0.977 * AllTop(k, top)
    ensures 0.0 <= 2.0 * AfterAllpass(e, k)
  {
  }

  lemma Starts(style: Style, s: State, m: real, top: real, r: real, keep: real)
    requires Under(s, m) && Built(style, s) && Slower(style, s.feedback, r, keep) && EchoBound(m) <= top
    requires style.echoLen > 0 ==> EchoBound(m) <= keep * top
    ensures Faded(style, s, top, r, EPS)
  {
    hide SideUnder, Lengths, SideFades, Fading, Within, Pow, Tail, Tuned;
    BuiltLengths(style, s);
    SideStarts(s.left, m, top, r, EPS);
    SideStarts(s.right, m, top, r, EPS);
    if style.echoLen > 0 {
      KeptTail(top, r, style.echoLen, keep);
      StartFading(s.echo.l, EchoBound(m), top, r, EchoBound(EPS));
      StartFading(s.echo.r, EchoBound(m), top, r, EchoBound(EPS));
    }
  }

  // ---- the tape ----

  /** The newest `k` samples on the tape are within `e`. */
  predicate Recent(t: Tape, k: int, e: real) {
    && |t.l| == |t.r| == WOB && k <= WOB
    && forall j :: 0 <= j < WOB && WOB - k <= j ==> Mag(t.l[j]) <= e && Mag(t.r[j]) <= e
  }

  lemma RecentNext(t: Tape, x: Stereo, k: nat, e: real)
    requires Recent(t, k, e) && x.Under(e) && k < WOB
    ensures Recent(Recorded(t, x), k + 1, e)
  {
  }

  lemma RecentPlays(t: Tape, b: real, e: real)
    requires Recent(t, TAPED + 1, e) && 96.0 <= b <= 384.0
    ensures Played(t, b).Under(e)
  {
    hide Mag, Blend;
    var c := Ceiling(b);
    BlendBounded(t.l[WOB - 1 - c], t.l[WOB - c], c as real - b, e);
    BlendBounded(t.r[WOB - 1 - c], t.r[WOB - c], c as real - b, e);
  }

  /** What leaves the tape is as quiet as what goes in, and the tape stays so. */
  lemma TapeStaysQuiet(s: State, i: Input)
    requires Shaped(s) && i.Sane() && !Audible(i.x) && (i.wobble > 0.0 ==> Recent(s.tape, TAPED, EPS))
    ensures i.x.Under(EPS) && AfterTape(s, i).Under(EPS)
  {
    hide Mag, Behind, Played, Recorded;
    QuietInput(i.x);
    if i.wobble > 0.0 {
      RecentNext(s.tape, i.x, TAPED, EPS);
      RecentPlays(Recorded(s.tape, i.x), Behind(i.wobble, i.sine), EPS);
    }
  }

  lemma QuietInput(x: Stereo)
    requires !Audible(x)
    ensures x.Under(EPS)
  {
  }

  // ---- a quiet run ----

  function Samples(ms: seq<Moment>): (n: nat)
    ensures n <= |ms|
  {
    if ms == [] then 0 else Samples(ms[..|ms| - 1]) + (if ms[|ms| - 1].Sample? then 1 else 0)
  }

  /** Nothing audible goes in, and no tick asks for a feedback over `fb`. */
  predicate Inaudible(mo: Moment, fb: real) {
    mo.Sane() && match mo
      case Sample(i) => !Audible(i.x)
      case Hang(ioWait) => Target(ioWait) <= fb
  }

  predicate QuietRun(ms: seq<Moment>, fb: real) {
    forall k :: 0 <= k < |ms| ==> Inaudible(ms[k], fb)
  }

  /** The tape plays at no sample, or at every sample, or holds nothing audible it could still play. */
  datatype Taping = Never | Always | Clean {
    predicate Allows(mo: Moment) {
      mo.Sample? ==> match this
        case Never => !(mo.i.wobble > 0.0)
        case Always => mo.i.wobble > 0.0
        case Clean => true
    }

    /** Samples until what leaves the tape is inaudible. */
    function Late(): (n: nat)
      ensures n <= TAPED
    {
      if this == Always then TAPED else 0
    }
  }

  predicate TapeAfter(taping: Taping, t: Tape, n: nat) {
    match taping
    case Never => true
    case Always => Recent(t, Min(n, TAPED), EPS)
    case Clean => Recent(t, TAPED, EPS)
  }

  /** What a quiet run of `n` samples leaves. */
  predicate Quieted(style: Style, t: State, n: nat, taping: Taping, m: real, fb: real, top: real, r: real) {
    && Built(style, t) && Under(t, m) && t.feedback <= fb && TapeAfter(taping, t.tape, n)
    && (n >= taping.Late() ==> Faded(style, t, Tail(top, r, n - taping.Late()), r, EPS))
  }

  /** The numbers of a run: a bound of at least the inaudible, and an envelope over it. */
  predicate Fits(style: Style, m: real, fb: real, top: real, r: real, keep: real) {
    && Damped(style) && EPS <= m && fb <= ECHO_MAX && Slower(style, fb, r, keep) && EchoBound(m) <= top
    && (style.echoLen > 0 ==> EchoBound(m) <= keep * top)
  }

  lemma Begins(style: Style, s: State, n: nat, taping: Taping, m: real, fb: real, top: real, r: real, keep: real)
    requires Fits(style, m, fb, top, r, keep) && Under(s, m) && Built(style, s) && s.feedback <= fb
    requires n >= taping.Late() ==> n == taping.Late()
    requires TapeAfter(taping, s.tape, n)
    ensures Quieted(style, s, n, taping, m, fb, top, r)
  {
    hide Under, Built, Slower, Faded, EchoBound, Damped, Tail, TapeAfter;
    FeedbackInRange(s, m);
    if n == taping.Late() {
      SlowerStill(style, s.feedback, fb, r, keep);
      Starts(style, s, m, top, r, keep);
      TailNext(top, r, 0);
    }
  }

  lemma FeedbackInRange(s: State, m: real)
    requires Under(s, m)
    ensures 0.0 <= s.feedback <= ECHO_MAX
  {
  }

  /** The tape after one more quiet sample. */
  lemma TapeStep(s: State, i: Input, taping: Taping, n: nat)
    requires Shaped(s) && Inaudible(Sample(i), 0.0) && taping.Allows(Sample(i)) && TapeAfter(taping, s.tape, n)
    ensures i.x.Under(EPS)
    ensures TapeAfter(taping, if i.wobble > 0.0 then Recorded(s.tape, i.x) else s.tape, n + 1)
    ensures n >= taping.Late() ==> AfterTape(s, i).Under(EPS)
  {
    hide Mag, Recorded, Behind, Played;
    QuietInput(i.x);
    if n >= taping.Late() {
      TapeStaysQuiet(s, i);
    }
    if i.wobble > 0.0 && taping != Never {
      var k := if taping == Always then Min(n, TAPED) else TAPED;
      RecentNext(s.tape, i.x, k, EPS);
      RecentLess(Recorded(s.tape, i.x), k + 1, if taping == Always then Min(n + 1, TAPED) else TAPED);
    }
  }

  lemma RecentLess(t: Tape, k: nat, j: nat)
    requires Recent(t, k, EPS) && j <= k
    ensures Recent(t, j, EPS)
  {
  }

  lemma BuiltStays(style: Style, s: State, i: Input)
    requires Built(style, s) && i.Sane()
    ensures Built(style, Passed(style, s, i))
  {
    hide Mag, Played, Recorded, Behind, Length;
  }

  lemma SampleStep(style: Style, s: State, i: Input, n: nat, taping: Taping, m: real, fb: real, top: real, r: real,
                   keep: real)
    requires Fits(style, m, fb, top, r, keep) && Quieted(style, s, n, taping, m, fb, top, r)
    requires s.quiet < RATE * 6 && Inaudible(Sample(i), fb) && taping.Allows(Sample(i))
    ensures RoomNext(style, s, i).quiet == s.quiet + 1
    ensures Quieted(style, RoomNext(style, s, i), n + 1, taping, m, fb, top, r)
    ensures n >= taping.Late() ==> RoomOut(style, s, i).Under(Heard(Tail(top, r, n - taping.Late()), EPS))
  {
    hide Under, Faded, EchoBound, Damped, Tail, TapeAfter, Recent, Mag, Slower, Passed, Sounded, AfterTape, Heard;
    hide Lengths, Shaped, Recorded, Stereo.Under;
    var t := RoomNext(style, s, i);
    TapeStep(s, i, taping, n);
    BuiltStays(style, s, i);
    StaysUnder(style, s, i, m);
    TapeOf(style, s, i);
    if n >= taping.Late() {
      var k := n - taping.Late();
      TailAtLeast(top, r, k, m, style, fb, keep);
      SlowerStill(style, s.feedback, fb, r, keep);
      PassedFades(style, s, i, Tail(top, r, k), r, EPS, keep);
      TailDown(top, r, k);
      FadedApart(style, Passed(style, s, i), s.quiet + 1, Tail(top, r, k + 1), r);
    } else {
      Begins(style, t, n + 1, taping, m, fb, top, r, keep);
    }
  }

  lemma StaysUnder(style: Style, s: State, i: Input, m: real)
    requires Damped(style) && EPS <= m && Under(s, m) && i.Sane() && i.x.Under(EPS) && Shaped(s)
    ensures Under(RoomNext(style, s, i), m)
  {
    hide Under, RoomNext, RoomOut, Mag;
    StereoMore(i.x, EPS, m);
    RoomBounded(style, s, i, m);
  }

  lemma TapeOf(style: Style, s: State, i: Input)
    requires Shaped(s) && i.Sane()
    ensures Passed(style, s, i).tape == if i.wobble > 0.0 then Recorded(s.tape, i.x) else s.tape
  {
    hide Mag, Played, Recorded, Behind, Echoing, Echoed, SideNext;
  }

  lemma TailAtLeast(top: real, r: real, k: nat, m: real, style: Style, fb: real, keep: real)
    requires Fits(style, m, fb, top, r, keep)
    ensures 0.0 <= Tail(top, r, k)
  {
    PowRange(r, k);
    NonNegative(top, Pow(r, k));
  }

  lemma TailDown(top: real, r: real, k: nat)
    ensures Down(Tail(top, r, k), r) == Tail(top, r, k + 1)
  {
    Swap(top, r, Pow(r, k));
  }

  lemma Swap(a: real, b: real, c: real)
    ensures a * c * b == a * (b * c)
  {
  }

  lemma FadedApart(style: Style, s: State, q: nat, top: real, r: real)
    requires Faded(style, s, top, r, EPS)
    ensures Faded(style, s.(quiet := q), top, r, EPS)
  {
  }

  lemma HangStep(style: Style, s: State, ioWait: nat, n: nat, taping: Taping, m: real, fb: real, top: real, r: real)
    requires Quieted(style, s, n, taping, m, fb, top, r) && Inaudible(Hang(ioWait), fb)
    ensures Quieted(style, s.(feedback := Hung(s.feedback, ioWait)), n, taping, m, fb, top, r)
  {
    hide TapeUnder, EchoUnder, SideUnder, EchoFades, SideFades, Recent, Tail, Lengths, Formed;
  }

  /** Through any quiet run that ends before the rest: the envelope falls with every sample, whatever went before. */
  lemma {:induction false} QuietRunFades(style: Style, s: State, ms: seq<Moment>, taping: Taping, m: real,
                                         fb: real, top: real, r: real, keep: real)
    requires Fits(style, m, fb, top, r, keep) && Under(s, m) && Built(style, s) && s.feedback <= fb
    requires QuietRun(ms, fb) && s.quiet + Samples(ms) <= RATE * 6
    requires TapeAfter(taping, s.tape, 0) && forall k :: 0 <= k < |ms| ==> taping.Allows(ms[k])
    ensures Shaped(s) && (forall k :: 0 <= k < |ms| ==> ms[k].Sane())
    ensures RoomRun(style, s, ms).quiet == s.quiet + Samples(ms)
    ensures Quieted(style, RoomRun(style, s, ms), Samples(ms), taping, m, fb, top, r)
    decreases |ms|
  {
    hide Fits, Under, Built, Quieted, TapeAfter, RoomNext;
    BuiltIsShaped(style, s);
    SaneRun(ms, fb);
    if ms == [] {
      Begins(style, s, 0, taping, m, fb, top, r, keep);
    } else {
      var n := |ms| - 1;
      QuietRunFades(style, s, ms[..n], taping, m, fb, top, r, keep);
      var t := RoomRun(style, s, ms[..n]);
      assert Inaudible(ms[n], fb) && taping.Allows(ms[n]);
      match ms[n] {
        case Sample(i) => SampleStep(style, t, i, Samples(ms[..n]), taping, m, fb, top, r, keep);
        case Hang(ioWait) => HangStep(style, t, ioWait, Samples(ms[..n]), taping, m, fb, top, r);
      }
    }
  }

  lemma BuiltIsShaped(style: Style, s: State)
    requires Built(style, s)
    ensures Shaped(s)
  {
  }

  lemma SaneRun(ms: seq<Moment>, fb: real)
    requires QuietRun(ms, fb)
    ensures forall k :: 0 <= k < |ms| ==> ms[k].Sane()
  {
    forall k | 0 <= k < |ms|
      ensures ms[k].Sane()
    {
      assert Inaudible(ms[k], fb);
    }
  }

  // ---- six seconds ----

  const TECHNO := 5

  /** The highest feedback the rates below are for: the room's own, and techno's while IO waiting stays short. */
  function RestFeedback(room: nat): real
    requires room < |ROOMS|
  {
    if room == TECHNO then 0.534 else ROOMS[room].echoFeedback
  }

  function Keep(room: nat): real {
    if room == TECHNO then 0.5346 else if room == 0 then 0.457 else 0.3521
  }

  lemma FastLasts()
    ensures Lasts(FAST)
  {
    PowAtLeast(0.000036, 1785);
    PowAtLeast(0.000036, 630);
  }

  lemma SlowLasts()
    ensures Lasts(SLOW)
  {
    PowAtLeast(0.0000145, 1785);
    PowAtLeast(0.0000145, 630);
  }

  lemma FastIsSlower(room: nat)
    requires room < |ROOMS|
    ensures Slower(ROOMS[room], RestFeedback(room), FAST, Keep(room))
    ensures 0.35 <= Keep(room)
  {
    hide Pow, Lasts;
    FastLasts();
    FastPowers();
    LongerLess(ROOMS[room].echoLen);
  }

  lemma LongerLess(n: nat)
    ensures n <= 28800 ==> Pow(FAST, 28800) <= Pow(FAST, n)
    ensures n <= 21600 ==> Pow(FAST, 21600) <= Pow(FAST, n)
    ensures n <= 17280 ==> Pow(FAST, 17280) <= Pow(FAST, n)
  {
    if n <= 28800 {
      PowDecreases(FAST, n, 28800);
    }
    if n <= 21600 {
      PowDecreases(FAST, n, 21600);
    }
    if n <= 17280 {
      PowDecreases(FAST, n, 17280);
    }
  }

  /** A quiet run from the last audible sample to the rest. */
  predicate ToTheRest(room: nat, s: State, ms: seq<Moment>, taping: Taping, m: real, fb: real)
    requires room < |ROOMS|
  {
    && Under(s, m) && EPS <= m && Built(ROOMS[room], s) && s.quiet == 0 && s.feedback <= fb
    && QuietRun(ms, fb) && Samples(ms) == RATE * 6
    && TapeAfter(taping, s.tape, 0) && forall k :: 0 <= k < |ms| ==> taping.Allows(ms[k])
  }

  /** What is left in the room and what it would give out, all under one level. */
  ghost predicate Left(style: Style, s: State, level: real) {
    && Built(style, s)
    && (style.echoLen > 0 ==> EchoLeft(s.echo, level))
    && SideLeft(s.left, level) && SideLeft(s.right, level)
    && forall i: Input :: i.Sane() && AfterTape(s, i).Under(EPS) ==> Sounded(style, s, i).Under(Heard(level, EPS))
  }

  predicate EchoLeft(f: EchoLine, level: real) {
    && Within(f.l, level + EchoBound(EPS)) && Within(f.r, level + EchoBound(EPS))
    && Mag(f.darkL) <= LAG * level + EchoBound(EPS) && Mag(f.darkR) <= LAG * level + EchoBound(EPS)
  }

  predicate SideLeft(s: Side, level: real) {
    && Formed(s)
    && (forall i :: 0 <= i < COMBS ==>
         Within(s.combs[i].cells, COMB * level + CombBound(EPS))
         && Mag(s.combs[i].store) <= LAG * (COMB * level) + CombBound(EPS))
    && forall i :: 0 <= i < ALLS ==> Within(s.alls[i].cells, AllTop(i, level) + 2.0 * AfterAllpass(EPS, i))
  }

  lemma SideIsLeft(s: Side, top: real, r: real, level: real)
    requires SideFades(s, top, r, EPS) && 0.0 <= top <= level && Lasts(r)
    ensures SideLeft(s, level)
  {
    hide Fading, Within, Lasts, AllTop, CombBound, AfterAllpass;
    AtMostOne(r);
    forall i | 0 <= i < COMBS
      ensures Within(s.combs[i].cells, COMB * level + CombBound(EPS))
    {
      FadingWithin(s.combs[i].cells, COMB * top, r, CombBound(EPS));
      Loose(s.combs[i].cells, COMB * top + CombBound(EPS), COMB * level + CombBound(EPS));
    }
    forall i | 0 <= i < ALLS
      ensures Within(s.alls[i].cells, AllTop(i, level) + 2.0 * AfterAllpass(EPS, i))
    {
      AllTopGrows(i, top, level);
      FadingWithin(s.alls[i].cells, AllTop(i, top), r, 2.0 * AfterAllpass(EPS, i));
      Loose(s.alls[i].cells, AllTop(i, top) + 2.0 * AfterAllpass(EPS, i),
            AllTop(i, level) + 2.0 * AfterAllpass(EPS, i));
    }
  }

  lemma AllTopGrows(k: nat, a: real, b: real)
    requires k < ALLS && 0.0 <= a <= b
    ensures 0.0 <= AllTop(k, a) <= AllTop(k, b)
  {
  }

  lemma IsLeft(style: Style, s: State, top: real, r: real, keep: real, level: real)
    requires Damped(style) && Built(style, s) && Faded(style, s, top, r, EPS) && Slower(style, s.feedback, r, keep)
    requires 0.0 <= top <= level
    ensures Left(style, s, level)
  {
    hide Built, SideFades, SideLeft, Fading, Within, Lasts, Pow, Sounded, AfterTape, Passed, Mag;
    SideIsLeft(s.left, top, r, level);
    SideIsLeft(s.right, top, r, level);
    if style.echoLen > 0 {
      AtMostOne(r);
      FadingWithin(s.echo.l, top, r, EchoBound(EPS));
      FadingWithin(s.echo.r, top, r, EchoBound(EPS));
      Loose(s.echo.l, top + EchoBound(EPS), level + EchoBound(EPS));
      Loose(s.echo.r, top + EchoBound(EPS), level + EchoBound(EPS));
    }
    forall i: Input | i.Sane() && AfterTape(s, i).Under(EPS)
      ensures Sounded(style, s, i).Under(Heard(level, EPS))
    {
      PassedFades(style, s, i, top, r, EPS, keep);
      StereoMore(Sounded(style, s, i), Heard(top, EPS), Heard(level, EPS));
    }
  }

  lemma RunLeaves(room: nat, s: State, ms: seq<Moment>, taping: Taping, m: real, fb: real, top: real, r: real,
                  keep: real,
                  n: nat, most: real)
    requires room < |ROOMS| && ToTheRest(room, s, ms, taping, m, fb) && Fits(ROOMS[room], m, fb, top, r, keep)
    requires n <= RATE * 6 - TAPED && Between(r, n, 0.0, most)
    ensures Shaped(s) && (forall k :: 0 <= k < |ms| ==> ms[k].Sane())
    ensures RoomRun(ROOMS[room], s, ms).quiet == RATE * 6
    ensures Left(ROOMS[room], RoomRun(ROOMS[room], s, ms), top * most)
  {
    hide Faded, Built, Left, Pow, TapeAfter, Under;
    var style := ROOMS[room];
    QuietRunFades(style, s, ms, taping, m, fb, top, r, keep);
    var t, k := RoomRun(style, s, ms), RATE * 6 - taping.Late();
    TailAtLeast(top, r, k, m, style, fb, keep);
    TailMost(top, r, n, k, most, m);
    SlowerStill(style, t.feedback, fb, r, keep);
    IsLeft(style, t, Tail(top, r, k), r, keep, top * most);
  }

  lemma TailMost(top: real, r: real, n: nat, k: nat, most: real, m: real)
    requires n <= k && Lasts(r) && Between(r, n, 0.0, most) && EPS <= m && EchoBound(m) <= top
    ensures Tail(top, r, k) <= top * most
  {
    AtMostOne(r);
    PowDecreases(r, n, k);
    NonNegative(top, most - Pow(r, k));
  }

  /**
   Six seconds after the last audible sample, over what inaudible input alone keeps
   up, every echo holds at most 0.0003 of what could have gone in; every comb less
   than that; the last allpass, the fullest, up to 0.042 of it; and the room would
   give out at most a fourteenth, 75 dB under the most it can.  Techno's, while no
   tick has asked its echo for a feedback over 0.534.
  */
  lemma SixSeconds(room: nat, s: State, ms: seq<Moment>, taping: Taping, m: real)
    requires room < |ROOMS| && ToTheRest(room, s, ms, taping, m, RestFeedback(room))
    ensures Shaped(s) && (forall k :: 0 <= k < |ms| ==> ms[k].Sane())
    ensures RoomRun(ROOMS[room], s, ms).quiet == RATE * 6
    ensures Left(ROOMS[room], RoomRun(ROOMS[room], s, ms), m * 0.0003)
  {
    hide ToTheRest, Left, Pow, Lasts, Keep;
    FastIsSlower(room);
    EveryRoomIsDamped(room);
    FastPowers();
    AtLeastInaudible(room, s, ms, taping, m, RestFeedback(room));
    TopFits(m, Keep(room));
    RunLeaves(room, s, ms, taping, m, RestFeedback(room), 8.0 * m, FAST, Keep(room), 285120, 0.0000373);
    LeftMore(ROOMS[room], RoomRun(ROOMS[room], s, ms), 8.0 * m * 0.0000373, m * 0.0003);
  }

  lemma AtLeastInaudible(room: nat, s: State, ms: seq<Moment>, taping: Taping, m: real, fb: real)
    requires room < |ROOMS| && ToTheRest(room, s, ms, taping, m, fb)
    ensures EPS <= m
  {
  }

  lemma TopFits(m: real, keep: real)
    requires EPS <= m && 0.35 <= keep
    ensures EchoBound(m) <= 8.0 * m && EchoBound(m) <= keep * (8.0 * m)
  {
    NonNegative(keep - 0.35, m);
  }

  lemma LeftMore(style: Style, s: State, a: real, b: real)
    requires Left(style, s, a) && a <= b && 0.0 <= a
    ensures Left(style, s, b)
  {
    hide Built, Sounded, AfterTape, Within, Mag, AllTop, Shaped;
    BuiltIsShaped(style, s);
    if style.echoLen > 0 {
      Loose(s.echo.l, a + EchoBound(EPS), b + EchoBound(EPS));
      Loose(s.echo.r, a + EchoBound(EPS), b + EchoBound(EPS));
    }
    SideLeftMore(s.left, a, b);
    SideLeftMore(s.right, a, b);
    forall i: Input | i.Sane() && AfterTape(s, i).Under(EPS)
      ensures Sounded(style, s, i).Under(Heard(b, EPS))
    {
      StereoMore(Sounded(style, s, i), Heard(a, EPS), Heard(b, EPS));
    }
  }

  lemma SideLeftMore(s: Side, a: real, b: real)
    requires SideLeft(s, a) && 0.0 <= a <= b
    ensures SideLeft(s, b)
  {
    hide Within, AllTop, AfterAllpass, CombBound;
    forall i | 0 <= i < COMBS
      ensures Within(s.combs[i].cells, COMB * b + CombBound(EPS))
    {
      Loose(s.combs[i].cells, COMB * a + CombBound(EPS), COMB * b + CombBound(EPS));
    }
    forall i | 0 <= i < ALLS
      ensures Within(s.alls[i].cells, AllTop(i, b) + 2.0 * AfterAllpass(EPS, i))
    {
      AllTopGrows(i, a, b);
      Loose(s.alls[i].cells, AllTop(i, a) + 2.0 * AfterAllpass(EPS, i), AllTop(i, b) + 2.0 * AfterAllpass(EPS, i));
    }
  }

  /** Techno's room, whatever the ticks asked of its echo: a fifteenth at most, far from gone. */
  lemma SixSecondsOfTechno(s: State, ms: seq<Moment>, taping: Taping, m: real)
    requires ToTheRest(TECHNO, s, ms, taping, m, ECHO_MAX)
    ensures Shaped(s) && (forall k :: 0 <= k < |ms| ==> ms[k].Sane())
    ensures RoomRun(ROOMS[TECHNO], s, ms).quiet == RATE * 6
    ensures Left(ROOMS[TECHNO], RoomRun(ROOMS[TECHNO], s, ms), m * 0.065)
  {
    hide ToTheRest, Left, Pow, Lasts;
    SlowLasts();
    SlowPowers();
    EveryRoomIsDamped(TECHNO);
    AtLeastInaudible(TECHNO, s, ms, taping, m, ECHO_MAX);
    RunLeaves(TECHNO, s, ms, taping, m, ECHO_MAX, 3.5 * m, SLOW, 0.7824, 276000, 0.01849);
    LeftMore(ROOMS[TECHNO], RoomRun(ROOMS[TECHNO], s, ms), 3.5 * m * 0.01849, m * 0.065);
  }

  // ---- after any run ----

  lemma {:induction false} RunStaysBuilt(style: Style, s: State, ms: seq<Moment>)
    requires Built(style, s) && forall k :: 0 <= k < |ms| ==> ms[k].Sane()
    ensures Shaped(s) && Built(style, RoomRun(style, s, ms))
  {
    hide Built, RoomNext;
    BuiltIsShaped(style, s);
    if ms != [] {
      var n := |ms| - 1;
      RunStaysBuilt(style, s, ms[..n]);
      assert ms[n].Sane();
      MomentStaysBuilt(style, RoomRun(style, s, ms[..n]), ms[n]);
    }
  }

  lemma MomentStaysBuilt(style: Style, s: State, mo: Moment)
    requires Built(style, s) && mo.Sane()
    ensures Shaped(s) && Built(style, At(style, s, mo))
  {
    hide Mag, Played, Recorded, Behind, Passed;
    if mo.Sample? {
      BuiltStays(style, s, mo.i);
    }
  }

  lemma AudibleStarts(style: Style, s: State, i: Input)
    requires Shaped(s) && i.Sane() && Audible(i.x)
    ensures RoomNext(style, s, i).quiet == 0
  {
    hide Passed;
  }

  /** From a new room on, whatever was played in it within `m` up to an audible sample, six quiet seconds leave this. */
  lemma AfterAnyRun(room: nat, s: State, before: seq<Moment>, ms: seq<Moment>, taping: Taping, m: real)
    requires room < |ROOMS| && Built(ROOMS[room], s) && Under(s, 0.0) && EPS <= m
    requires before != [] && forall k :: 0 <= k < |before| ==> before[k].Sane() && before[k].Under(m)
    requires before[|before| - 1].Sample? && Audible(before[|before| - 1].i.x)
    requires Shaped(s) && RoomRun(ROOMS[room], s, before).feedback <= RestFeedback(room)
    requires QuietRun(ms, RestFeedback(room)) && Samples(ms) == RATE * 6
    requires TapeAfter(taping, RoomRun(ROOMS[room], s, before).tape, 0) && forall k :: 0 <= k < |ms| ==>
      taping.Allows(ms[k])
    ensures forall k :: 0 <= k < |ms| ==> ms[k].Sane()
    ensures var t := RoomRun(ROOMS[room], RoomRun(ROOMS[room], s, before), ms);
      t.quiet == RATE * 6 && Left(ROOMS[room], t, m * 0.0003)
  {
    hide Built, Under, Left, RoomNext, TapeAfter, RestFeedback;
    var style, n := ROOMS[room], |before| - 1;
    EveryRoomIsDamped(room);
    NothingIsUnder(s, m);
    RunBounded(style, s, before, m);
    RunStaysBuilt(style, s, before);
    assert before[n].Sane();
    AudibleStarts(style, RoomRun(style, s, before[..n]), before[n].i);
    SixSeconds(room, RoomRun(style, s, before), ms, taping, m);
  }
}
