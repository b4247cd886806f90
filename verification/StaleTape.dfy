/** What a tape that was not playing still holds, and when that can be heard. */
module StaleTape {
  import opened Reals
  import opened Comb
  import opened Reverb
  import opened Envelope
  import opened Rates
  import opened Resting

  function RecordedAll(t: Tape, xs: seq<Stereo>): (u: Tape)
    requires |t.l| == |t.r| == WOB
    ensures |u.l| == |u.r| == WOB
    decreases |xs|
  {
    if xs == [] then t else Recorded(RecordedAll(t, xs[..|xs| - 1]), xs[|xs| - 1])
  }

  ghost predicate PlaysQuiet(t: Tape, e: real)
    requires |t.l| == |t.r| == WOB
  {
    forall xs: seq<Stereo>, b: real :: Calm(xs, e) && 96.0 <= b <= 384.0 ==> Plays(t, xs, b, e)
  }

  predicate Calm(xs: seq<Stereo>, e: real) {
    xs != [] && forall k :: 0 <= k < |xs| ==> xs[k].Under(e)
  }

  /** What is heard `b` samples back once `xs` are recorded is within `e`. */
  predicate Plays(t: Tape, xs: seq<Stereo>, b: real, e: real)
    requires |t.l| == |t.r| == WOB && 96.0 <= b <= 384.0
  {
    Played(RecordedAll(t, xs), b).Under(e)
  }

  lemma {:induction false} StaysRecent(t: Tape, xs: seq<Stereo>, e: real)
    requires Recent(t, TAPED, e) && xs != [] && forall k :: 0 <= k < |xs| ==> xs[k].Under(e)
    ensures Recent(RecordedAll(t, xs), TAPED + 1, e)
    decreases |xs|
  {
    hide Mag, Recorded;
    var n := |xs| - 1;
    if n > 0 {
      StaysRecent(t, xs[..n], e);
      RecentNext(RecordedAll(t, xs[..n]), xs[n], TAPED, e);
    } else {
      RecentNext(t, xs[n], TAPED, e);
    }
  }

  function Silence(n: nat): (xs: seq<Stereo>)
    ensures |xs| == n
  {
    seq(n, _ => Stereo(0.0, 0.0))
  }

  /** Recording `n` samples makes every cell `n` samples older. */
  lemma {:induction false} Older(t: Tape, n: nat, j: nat)
    requires |t.l| == |t.r| == WOB && n <= j < WOB
    ensures RecordedAll(t, Silence(n)).l[j - n] == t.l[j] && RecordedAll(t, Silence(n)).r[j - n] == t.r[j]
  {
    if n > 0 {
      Older(t, n - 1, j);
      assert Silence(n)[..n - 1] == Silence(n - 1);
    }
  }

  /** A whole number of samples back is one cell of the tape. */
  lemma WholeBack(t: Tape, c: nat)
    requires |t.l| == |t.r| == WOB && 96 <= c <= 384
    ensures Ceiling(c as real) == c
    ensures Played(t, c as real) == Stereo(t.l[WOB - 1 - c], t.r[WOB - 1 - c])
  {
  }

  lemma RecentIsQuiet(t: Tape, e: real)
    requires |t.l| == |t.r| == WOB && Recent(t, TAPED, e)
    ensures PlaysQuiet(t, e)
  {
    hide Mag, Played, Recent;
    forall xs: seq<Stereo>, b: real | Calm(xs, e) && 96.0 <= b <= 384.0
      ensures Plays(t, xs, b, e)
    {
      StaysRecent(t, xs, e);
      RecentPlays(RecordedAll(t, xs), b, e);
    }
  }

  lemma QuietIsRecent(t: Tape, e: real)
    requires |t.l| == |t.r| == WOB && 0.0 <= e && PlaysQuiet(t, e)
    ensures Recent(t, TAPED, e)
  {
    hide Mag, PlaysQuiet;
    forall j | WOB - TAPED <= j < WOB
      ensures Mag(t.l[j]) <= e && Mag(t.r[j]) <= e
    {
      ComesRound(t, e, j);
    }
  }

  /** What leaves the tape is inaudible, however it goes on wobbling, if and only if its newest 384 samples are. */
  lemma QuietExactly(t: Tape, e: real)
    requires |t.l| == |t.r| == WOB && 0.0 <= e
    ensures PlaysQuiet(t, e) <==> Recent(t, TAPED, e)
  {
    hide Recent, PlaysQuiet;
    if Recent(t, TAPED, e) {
      RecentIsQuiet(t, e);
    }
    if PlaysQuiet(t, e) {
      QuietIsRecent(t, e);
    }
  }

  lemma ComesRound(t: Tape, e: real, j: nat)
    requires |t.l| == |t.r| == WOB && 0.0 <= e && PlaysQuiet(t, e) && WOB - TAPED <= j < WOB
    ensures Mag(t.l[j]) <= e && Mag(t.r[j]) <= e
  {
    hide Mag, Played, RecordedAll, Recorded;
    var age := WOB - 1 - j;
    var n := if age >= 95 then 1 else 96 - age;
    var u := RecordedAll(t, Silence(n));
    ZerosUnder(n, e);
    Older(t, n, j);
    WholeBack(u, age + n);
    assert Plays(t, Silence(n), (age + n) as real, e);
  }

  lemma ZerosUnder(n: nat, e: real)
    requires 0.0 <= e
    ensures forall k :: 0 <= k < n ==> Silence(n)[k].Under(e)
  {
  }

  // ---- the failure ----

  /** Quiet samples when the last tick of the six seconds begins: ticks are what starts and stops the tape. */
  const LAST_TICK := 59 * (RATE / 10)

  /** The tape plays, and `x` goes in. */
  predicate Taped(mo: Moment, x: Stereo) {
    mo.Sane() && mo.Sample? && mo.i.x == x && mo.i.wobble > 0.0
  }

  /** The newest `n` cells of the tape hold `x`. */
  predicate Holds(t: Tape, n: int, x: Stereo) {
    && |t.l| == |t.r| == WOB
    && forall j :: 0 <= j < WOB && WOB - n <= j ==> t.l[j] == x.l && t.r[j] == x.r
  }

  lemma HoldsNext(t: Tape, n: nat, x: Stereo)
    requires Holds(t, n, x)
    ensures Holds(Recorded(t, x), n + 1, x)
  {
  }

  lemma BlendSame(x: real, f: real)
    ensures Blend(x, x, f) == x
  {
  }

  lemma HoldsPlays(t: Tape, n: nat, y: Stereo, x: Stereo, b: real)
    requires Holds(t, n, x) && n >= WOB && 96.0 <= b <= 384.0
    ensures Played(Recorded(t, y), b) == x
  {
    hide Blend;
    var c := Ceiling(b);
    BlendSame(x.l, c as real - b);
    BlendSame(x.r, c as real - b);
  }

  lemma {:induction false} RunRecords(style: Style, s: State, ms: seq<Moment>, x: Stereo)
    requires Shaped(s) && Audible(x) && forall k :: 0 <= k < |ms| ==> Taped(ms[k], x)
    ensures forall k :: 0 <= k < |ms| ==> ms[k].Sane()
    ensures var t := RoomRun(style, s, ms);
      Holds(t.tape, |ms|, x) && t.feedback == s.feedback && (ms != [] ==> t.quiet == 0)
    decreases |ms|
  {
    hide Recorded, Holds, Audible, Played, Behind, Echoing, Echoed, SideNext, Mag;
    if ms == [] {
      HoldsNothing(s.tape, x);
    } else {
      var n := |ms| - 1;
      RunRecords(style, s, ms[..n], x);
      assert Taped(ms[n], x);
      var t := RoomRun(style, s, ms[..n]);
      HoldsNext(t.tape, n, x);
      TapeOf(style, t, ms[n].i);
    }
  }

  lemma HoldsNothing(t: Tape, x: Stereo)
    requires |t.l| == |t.r| == WOB
    ensures Holds(t, 0, x)
  {
  }

  /** While the tape does not play nothing is recorded, sound or not. */
  lemma {:induction false} RunKeepsTape(style: Style, s: State, ms: seq<Moment>)
    requires Shaped(s) && forall k :: 0 <= k < |ms| ==> ms[k].Sane() && Never.Allows(ms[k])
    ensures RoomRun(style, s, ms).tape == s.tape
    decreases |ms|
  {
    hide Recorded, Played, Behind, Echoing, Echoed, SideNext, Mag, Audible;
    if ms != [] {
      var n := |ms| - 1;
      RunKeepsTape(style, s, ms[..n]);
      assert ms[n].Sane() && Never.Allows(ms[n]);
      if ms[n].Sample? {
        TapeOf(style, RoomRun(style, s, ms[..n]), ms[n].i);
      }
    }
  }

  /**
   In any room: what the tape recorded last is what leaves it when it starts again,
   at any phase, whatever goes in then and whatever was played in between, however long.
  */
  lemma StartsAgain(style: Style, s: State, before: seq<Moment>, between: seq<Moment>, x: Stereo, i: Input)
    requires Shaped(s) && Audible(x) && |before| >= WOB && forall k :: 0 <= k < |before| ==> Taped(before[k], x)
    requires forall k :: 0 <= k < |between| ==> between[k].Sane() && Never.Allows(between[k])
    requires i.Sane() && i.wobble > 0.0
    ensures forall k :: 0 <= k < |before| ==> before[k].Sane()
    ensures AfterTape(RoomRun(style, RoomRun(style, s, before), between), i) == x
  {
    hide Recorded, Holds, Behind, Audible, Mag, RoomRun, Played;
    RunRecords(style, s, before, x);
    RunKeepsTape(style, RoomRun(style, s, before), between);
    HoldsPlays(RoomRun(style, s, before).tape, |before|, i.x, x, Behind(i.wobble, i.sine));
  }

  /** What the room gives out: what left the tape, over what it would give out without. */
  lemma OverTheTail(style: Style, s: State, i: Input, b: real)
    requires Shaped(s) && i.Sane() && Sounded(style, s, Input(Stereo(0.0, 0.0), 0.0, 0.0)).Under(b)
    ensures var out, x := Sounded(style, s, i), AfterTape(s, i); x.l - b <= out.l && x.r - b <= out.r
  {
    hide Recorded, Played, Behind, SideOut, Back;
  }

  /**
   The uplink's room, from a new one on: the tape records, stops with the sound, and
   the room goes quiet; in the last tenth of a second before the rest the tape plays
   again.  Silence goes in and nine tenths of the sound come out.
  */
  lemma StaleTapeSounds(s: State, before: seq<Moment>, between: seq<Moment>, m: real, i: Input)
    requires Empty(ROOMS[0], s) && EPS <= m
    requires |before| >= WOB && forall k :: 0 <= k < |before| ==> Taped(before[k], Stereo(m, m))
    requires QuietRun(between, 0.45) && LAST_TICK <= Samples(between) < RATE * 6
    requires forall k :: 0 <= k < |between| ==> Never.Allows(between[k])
    requires i.Sane() && i.wobble > 0.0 && !Audible(i.x)
    ensures Shaped(s) && (forall k :: 0 <= k < |before| ==> before[k].Sane())
    ensures forall k :: 0 <= k < |between| ==> between[k].Sane()
    ensures var out := RoomOut(ROOMS[0], RoomRun(ROOMS[0], RoomRun(ROOMS[0], s, before), between), i);
      0.92 * m - 0.0005 <= out.l && 0.92 * m - 0.0005 <= out.r
  {
    hide Built, Under, Empty, AfterTape, Sounded, RoomOut, RoomRun, Taped, Audible, QuietRun, Input.Sane, Stereo.Under;
    hide Shaped;
    var x := Stereo(m, m);
    HasRecorded(s, before, m);
    var t := RoomRun(ROOMS[0], s, before);
    GoesQuiet(t, between, m);
    var u := RoomRun(ROOMS[0], t, between);
    LoudIsAudible(m);
    StartsAgain(ROOMS[0], s, before, between, x, i);
    OverTheTail(ROOMS[0], u, i, 0.075 * m + 0.0005);
    NotResting(ROOMS[0], u, i);
  }

  lemma NotResting(style: Style, s: State, i: Input)
    requires Shaped(s) && i.Sane() && s.quiet < RATE * 6
    ensures RoomOut(style, s, i) == Sounded(style, s, i)
  {
    hide Sounded, Audible;
  }

  lemma HasRecorded(s: State, before: seq<Moment>, m: real)
    requires Empty(ROOMS[0], s) && EPS <= m
    requires |before| >= WOB && forall k :: 0 <= k < |before| ==> Taped(before[k], Stereo(m, m))
    ensures Shaped(s) && (forall k :: 0 <= k < |before| ==> before[k].Sane())
    ensures var t := RoomRun(ROOMS[0], s, before);
      Built(ROOMS[0], t) && Under(t, m) && t.quiet == 0 && t.feedback == 0.45
  {
    hide Built, Under, Empty, RoomRun, Taped, Audible;
    EmptyStarts(s, m);
    LoudIsAudible(m);
    RunRecords(ROOMS[0], s, before, Stereo(m, m));
    TapedUnder(before, m);
    EveryRoomIsSane(0);
    RunBounded(ROOMS[0], s, before, m);
    RunStaysBuilt(ROOMS[0], s, before);
  }

  lemma GoesQuiet(t: State, between: seq<Moment>, m: real)
    requires Built(ROOMS[0], t) && Under(t, m) && t.quiet == 0 && t.feedback == 0.45 && EPS <= m
    requires QuietRun(between, 0.45) && LAST_TICK <= Samples(between) < RATE * 6
    requires forall k :: 0 <= k < |between| ==> Never.Allows(between[k])
    ensures Shaped(t) && (forall k :: 0 <= k < |between| ==> between[k].Sane())
    ensures var u := RoomRun(ROOMS[0], t, between);
      && u.quiet == Samples(between)
      && Sounded(ROOMS[0], u, Input(Stereo(0.0, 0.0), 0.0, 0.0)).Under(0.075 * m + 0.0005)
  {
    hide Built, Under, Sounded, RoomRun, Fits, Quieted, QuietRun, Pow;
    UplinkFits(m);
    QuietRunFades(ROOMS[0], t, between, Never, m, 0.45, 8.0 * m, FAST, 0.457);
    LastSamples(RoomRun(ROOMS[0], t, between), Samples(between), m);
  }

  lemma EmptyStarts(s: State, m: real)
    requires Empty(ROOMS[0], s) && 0.0 <= m
    ensures Shaped(s) && Built(ROOMS[0], s) && Under(s, m) && s.feedback == 0.45
  {
    hide Under, Tuned;
    NothingIsUnder(s, m);
  }

  lemma LoudIsAudible(m: real)
    requires EPS <= m
    ensures Audible(Stereo(m, m)) && Stereo(m, m).Under(m)
  {
  }

  lemma TapedUnder(ms: seq<Moment>, m: real)
    requires EPS <= m && forall k :: 0 <= k < |ms| ==> Taped(ms[k], Stereo(m, m))
    ensures forall k :: 0 <= k < |ms| ==> ms[k].Sane() && ms[k].Under(m)
  {
    forall k | 0 <= k < |ms|
      ensures ms[k].Sane() && ms[k].Under(m)
    {
      assert Taped(ms[k], Stereo(m, m));
    }
  }

  lemma UplinkFits(m: real)
    requires EPS <= m
    ensures Fits(ROOMS[0], m, 0.45, 8.0 * m, FAST, 0.457)
  {
    hide Slower, Damped;
    FastIsSlower(0);
    EveryRoomIsDamped(0);
    TopFits(m, 0.457);
  }

  lemma LastTickFaded(m: real, n: nat)
    requires EPS <= m && LAST_TICK <= n
    ensures 0.0 <= Tail(8.0 * m, FAST, n) <= 8.0 * m * 0.0000402
  {
    hide Pow, Lasts;
    FastLasts();
    FastPowers();
    TopFits(m, 0.457);
    PowSum(FAST, LAST_TICK, 1920);
    PowAtLeast(0.000036, 1920);
    AtMostOne(FAST);
    PowRange(FAST, LAST_TICK);
    NonNegative(Pow(FAST, LAST_TICK), Pow(FAST, 1920) - 0.93);
    TailMost(8.0 * m, FAST, LAST_TICK, n, 0.0000402, m);
    TailAtLeast(8.0 * m, FAST, n, m, ROOMS[0], 0.45, 0.457) by { UplinkFits(m); }
  }

  /** What the room would give out by itself in the last tick before the rest. */
  lemma LastSamples(u: State, n: nat, m: real)
    requires EPS <= m && Quieted(ROOMS[0], u, n, Never, m, 0.45, 8.0 * m, FAST)
    requires u.quiet == n && LAST_TICK <= n < RATE * 6
    ensures Shaped(u) && Sounded(ROOMS[0], u, Input(Stereo(0.0, 0.0), 0.0, 0.0)).Under(0.075 * m + 0.0005)
  {
    hide Quieted, Fits, Sounded, Pow, Lasts, Tail, AfterTape;
    var i := Input(Stereo(0.0, 0.0), 0.0, 0.0);
    UplinkFits(m);
    QuietedShaped(u, n, m);
    SilenceIs();
    SampleStep(ROOMS[0], u, i, n, Never, m, 0.45, 8.0 * m, FAST, 0.457);
    LastTickFaded(m, n);
    StereoMore(Sounded(ROOMS[0], u, i), Heard(Tail(8.0 * m, FAST, n), EPS), 0.075 * m + 0.0005);
  }

  lemma QuietedShaped(u: State, n: nat, m: real)
    requires Quieted(ROOMS[0], u, n, Never, m, 0.45, 8.0 * m, FAST)
    ensures Shaped(u)
  {
    hide Tuned, Faded, Under;
  }

  lemma SilenceIs()
    ensures var i := Input(Stereo(0.0, 0.0), 0.0, 0.0);
      Inaudible(Sample(i), 0.45) && Never.Allows(Sample(i)) && !Audible(i.x)
  {
  }
}
