/**
 Techno's room, from a new one on: ticks move its echo's feedback while it sounds
 and while it goes quiet.  What its echo goes to rest with, by how long IO waits.
*/
module TechnoRest {
  import opened Arithmetic
  import opened Reals
  import opened Comb
  import opened Reverb
  import opened Envelope
  import opened Rates
  import opened Resting
  import opened SteadyEcho

  const LEN := 16875
  const TICK := 4800
  const SIX := 288000

  // ---- runs of the code's own room ----

  /** Techno's tape never plays, and no tick of the run finds IO waiting over step `k`. */
  predicate Ordinary(mo: Moment, k: nat) {
    mo.Sane() && (mo.Sample? ==> !(mo.i.wobble > 0.0)) && (mo.Hang? ==> mo.ioWait <= k)
  }

  predicate Faint(mo: Moment, e: real) {
    mo.Sample? ==> !Audible(mo.i.x) && mo.i.x.Under(e)
  }

  /** A new room, anything at all within `m` up to an audible sample, and six quiet seconds, with ticks throughout. */
  predicate Life(s: State, before: seq<Moment>, ms: seq<Moment>, m: real, e: real, k: nat) {
    && Empty(ROOMS[TECHNO], s) && 0.0 <= e
    && (forall j :: 0 <= j < |before| ==> Ordinary(before[j], k) && before[j].Under(m))
    && before != [] && before[|before| - 1].Sample? && Audible(before[|before| - 1].i.x)
    && (forall j :: 0 <= j < |ms| ==> Ordinary(ms[j], k) && Faint(ms[j], e)) && Samples(ms) == SIX
  }

  /** What the run leaves in the echo, once the room rests, is within a bound. */
  predicate Rested(s: State, before: seq<Moment>, ms: seq<Moment>, bound: real) {
    && Shaped(s)
    && (forall j :: 0 <= j < |before| ==> before[j].Sane()) && (forall j :: 0 <= j < |ms| ==> ms[j].Sane())
    && var t := RoomRun(ROOMS[TECHNO], RoomRun(ROOMS[TECHNO], s, before), ms);
      t.quiet == SIX && Within(t.echo.l, bound) && Within(t.echo.r, bound)
  }

  lemma TargetRange(k: nat)
    requires k <= 15
    ensures 0.45 <= Target(k) <= ECHO_MAX
  {
  }

  lemma HangStays(f: real, ioWait: nat, k: nat)
    requires ioWait <= k <= 15 && 0.45 <= f <= Target(k)
    ensures 0.45 <= Hung(f, ioWait) <= Target(k)
  {
  }

  /** What one moment does to the echo, its feedback and the count of quiet samples. */
  lemma MomentAt(t: State, mo: Moment, k: nat)
    requires Shaped(t) && Ordinary(mo, k)
    ensures var u := At(ROOMS[TECHNO], t, mo);
      && (mo.Hang? ==> u.echo == t.echo && u.quiet == t.quiet && u.feedback == Hung(t.feedback, mo.ioWait))
      && (mo.Sample? ==> u.feedback == t.feedback)
      && (mo.Sample? && !Rests(t, mo.i.x) ==>
            u.echo == Echoing(t.echo, mo.i.x, t.feedback) && u.quiet == if Audible(mo.i.x) then 0 else t.quiet + 1)
  {
    hide Played, Recorded, Echoing, Echoed, SideNext, Behind, Mono, Hung, Mag;
  }

  // ---- never more than the loudest echo keeps ----

  lemma BeforeIsTight(s: State, before: seq<Moment>, m: real, k: nat)
    requires Empty(ROOMS[TECHNO], s) && k <= 15 && 0.0 <= m
    requires forall j :: 0 <= j < |before| ==> Ordinary(before[j], k) && before[j].Under(m)
    ensures Shaped(s) && (forall j :: 0 <= j < |before| ==> before[j].Sane()) && 0.0 <= Target(k) <= ECHO_MAX
    ensures var t := RoomRun(ROOMS[TECHNO], s, before);
      && Tight(t.echo, m, Target(k)) && 0.45 <= t.feedback <= Target(k) && |t.echo.l| == |t.echo.r| == LEN
  {
    hide Under, Built, Tight;
    var style := ROOMS[TECHNO];
    TargetRange(k);
    EveryRoomIsSane(TECHNO);
    BuiltIsShaped(style, s);
    NothingIsUnder(s, m);
    StartTight(s, m, Target(k));
    OrdinaryTargets(before, k);
    RunTight(style, s, before, m, Target(k));
    RunBounded(style, s, before, m);
    RunStaysBuilt(style, s, before);
    BuiltLength(RoomRun(style, s, before));
  }

  lemma StartTight(s: State, m: real, fb: real)
    requires Under(s, 0.0) && 0.0 <= fb <= ECHO_MAX && 0.0 <= m
    ensures Tight(s.echo, m, fb)
  {
    SilenceIsTight(s.echo, m, fb);
  }

  lemma BuiltLength(s: State)
    requires Built(ROOMS[TECHNO], s)
    ensures |s.echo.l| == |s.echo.r| == LEN
  {
  }

  lemma OrdinaryTargets(ms: seq<Moment>, k: nat)
    requires k <= 15 && forall j :: 0 <= j < |ms| ==> Ordinary(ms[j], k)
    ensures forall j :: 0 <= j < |ms| ==> ms[j].Sane() && (ms[j].Hang? ==> Target(ms[j].ioWait) <= Target(k))
  {
    forall j | 0 <= j < |ms|
      ensures ms[j].Sane() && (ms[j].Hang? ==> Target(ms[j].ioWait) <= Target(k))
    {
      assert Ordinary(ms[j], k);
    }
  }

  /** Through the quiet, ticks and all, none keeps more than the loudest echo does at the highest feedback asked for. */
  lemma {:induction false} QuietDominated(s: State, ms: seq<Moment>, m: real, e: real, k: nat)
    requires Shaped(s) && k <= 15 && 0.0 <= e && |s.echo.l| == |s.echo.r| == LEN
    requires 0.0 <= Target(k) <= ECHO_MAX && Tight(s.echo, m, Target(k)) && 0.45 <= s.feedback <= Target(k)
    requires s.quiet + Samples(ms) <= SIX && forall j :: 0 <= j < |ms| ==> Ordinary(ms[j], k) && Faint(ms[j], e)
    ensures forall j :: 0 <= j < |ms| ==> ms[j].Sane()
    ensures var t := RoomRun(ROOMS[TECHNO], s, ms);
      && t.quiet == s.quiet + Samples(ms) && 0.45 <= t.feedback <= Target(k)
      && Dominated(t.echo, Residue(LEN, m, Samples(ms), Target(k)), EchoBound(e))
    decreases |ms|
  {
    hide Tight, Dominated, Residue, EchoBound, Hung, Steady, Target;
    OrdinaryTargets(ms, k);
    ResidueNext(LEN, m, 0, Target(k));
    if ms == [] {
      TightDominated(s.echo, LEN, m, Target(k), e);
    } else {
      var n := |ms| - 1;
      QuietDominated(s, ms[..n], m, e, k);
      var t := RoomRun(ROOMS[TECHNO], s, ms[..n]);
      assert Ordinary(ms[n], k) && Faint(ms[n], e);
      MomentAt(t, ms[n], k);
      if ms[n].Sample? {
        ResidueNext(LEN, m, Samples(ms[..n]), Target(k));
        DominatedNext(t.echo, ms[n].i.x, t.feedback, Residue(LEN, m, Samples(ms[..n]), Target(k)), Target(k), e);
      } else {
        HangStays(t.feedback, ms[n].ioWait, k);
      }
    }
  }

  lemma DominatedWithin(f: EchoLine, m: real, e: real, k: nat)
    requires k <= 15 && 0.0 <= Target(k) <= ECHO_MAX && 0.0 <= m
    requires Dominated(f, Residue(LEN, m, SIX, Target(k)), EchoBound(e))
    ensures var bound := Level(LEN, m, SIX, Target(k)) + EchoBound(e); Within(f.l, bound) && Within(f.r, bound)
  {
    hide Residue, Level, EchoBound, Mag;
    UnderLevel(LEN, m, SIX, Target(k));
  }

  lemma LastIsZero(s: State, before: seq<Moment>)
    requires Shaped(s) && before != [] && forall j :: 0 <= j < |before| ==> before[j].Sane()
    requires before[|before| - 1].Sample? && Audible(before[|before| - 1].i.x)
    ensures RoomRun(ROOMS[TECHNO], s, before).quiet == 0
  {
    hide RoomNext;
    var n := |before| - 1;
    assert before[n].Sane();
    AudibleStarts(ROOMS[TECHNO], RoomRun(ROOMS[TECHNO], s, before[..n]), before[n].i);
  }

  lemma NotNegativeBound(mo: Moment, m: real)
    requires mo.Sample? && mo.Under(m)
    ensures 0.0 <= m
  {
  }

  /** Everything a run of the code's room can go to rest with. */
  lemma LifeRests(s: State, before: seq<Moment>, ms: seq<Moment>, m: real, e: real, k: nat)
    requires Life(s, before, ms, m, e, k) && k <= 15
    ensures 0.0 <= Target(k) <= ECHO_MAX
    ensures Rested(s, before, ms, Level(LEN, m, SIX, Target(k)) + EchoBound(e))
  {
    hide Empty, Level, Tight, Dominated, EchoBound, Residue, RoomRun, Under;
    TargetRange(k);
    NotNegativeBound(before[|before| - 1], m);
    BeforeIsTight(s, before, m, k);
    LastIsZero(s, before);
    var t := RoomRun(ROOMS[TECHNO], s, before);
    QuietDominated(t, ms, m, e, k);
    DominatedWithin(RoomRun(ROOMS[TECHNO], t, ms).echo, m, e, k);
  }

  // ---- beats ----

  function Beat(k: nat, x: Stereo): (ms: seq<Moment>)
    ensures |ms| == TICK + 1
  {
    [Hang(k)] + seq(TICK, _ => Sample(Input(x, 0.0, 0.0)))
  }

  /** `n` ticks a tenth of a second apart, IO waiting at step `k`, one sound throughout. */
  function Beats(n: nat, k: nat, x: Stereo): seq<Moment> {
    if n == 0 then [] else Beats(n - 1, k, x) + Beat(k, x)
  }

  predicate OfBeat(mo: Moment, k: nat, x: Stereo) {
    mo == Hang(k) || mo == Sample(Input(x, 0.0, 0.0))
  }

  function Ticks(ms: seq<Moment>): nat {
    if ms == [] then 0 else Ticks(ms[..|ms| - 1]) + if ms[|ms| - 1].Hang? then 1 else 0
  }

  lemma {:induction false} CountAppend(a: seq<Moment>, b: seq<Moment>)
    ensures Samples(a + b) == Samples(a) + Samples(b) && Ticks(a + b) == Ticks(a) + Ticks(b)
    decreases |b|
  {
    if b == [] {
      assert a + b == a;
    } else {
      var n := |b| - 1;
      CountAppend(a, b[..n]);
      assert (a + b)[..|a + b| - 1] == a + b[..n];
    }
  }

  lemma {:induction false} SoundCounts(n: nat, x: Stereo)
    ensures var ms := seq(n, _ => Sample(Input(x, 0.0, 0.0))); Samples(ms) == n && Ticks(ms) == 0
  {
    if n > 0 {
      SoundCounts(n - 1, x);
      var ms := seq(n, _ => Sample(Input(x, 0.0, 0.0)));
      assert ms[..n - 1] == seq(n - 1, _ => Sample(Input(x, 0.0, 0.0)));
    }
  }

  lemma BeatCounts(k: nat, x: Stereo)
    ensures Samples(Beat(k, x)) == TICK && Ticks(Beat(k, x)) == 1
  {
    var sound := seq(TICK, _ => Sample(Input(x, 0.0, 0.0)));
    SoundCounts(TICK, x);
    CountAppend([Hang(k)], sound);
    assert [Hang(k)][..0] == [];
  }

  lemma {:induction false} BeatsCount(n: nat, k: nat, x: Stereo)
    ensures Samples(Beats(n, k, x)) == n * TICK && Ticks(Beats(n, k, x)) == n
    ensures forall j :: 0 <= j < |Beats(n, k, x)| ==> OfBeat(Beats(n, k, x)[j], k, x)
    ensures n > 0 ==> Beats(n, k, x) != [] && Beats(n, k, x)[|Beats(n, k, x)| - 1].Sample?
  {
    if n > 0 {
      BeatsCount(n - 1, k, x);
      BeatCounts(k, x);
      CountAppend(Beats(n - 1, k, x), Beat(k, x));
    }
  }

  lemma {:induction false} BeatsAppend(a: nat, b: nat, k: nat, x: Stereo)
    ensures Beats(a + b, k, x) == Beats(a, k, x) + Beats(b, k, x)
  {
    hide Beat;
    if b == 0 {
      assert Beats(a, k, x) + [] == Beats(a, k, x);
    } else {
      BeatsAppend(a, b - 1, k, x);
    }
  }

  lemma {:induction false} RunAppend(style: Style, s: State, a: seq<Moment>, b: seq<Moment>)
    requires Shaped(s)
    requires (forall j :: 0 <= j < |a| ==> a[j].Sane()) && (forall j :: 0 <= j < |b| ==> b[j].Sane())
    ensures forall j :: 0 <= j < |a + b| ==> (a + b)[j].Sane()
    ensures RoomRun(style, s, a + b) == RoomRun(style, RoomRun(style, s, a), b)
    decreases |b|
  {
    hide Shaped, At;
    if b == [] {
      assert a + b == a;
    } else {
      var n := |b| - 1;
      RunAppend(style, s, a, b[..n]);
      assert (a + b)[..|a + b| - 1] == a + b[..n];
    }
  }

  // ---- the loudest runs ----

  lemma OfBeatMoment(mo: Moment, k: nat, x: Stereo)
    requires OfBeat(mo, k, x) && k <= 15
    ensures mo.Sane() && Ordinary(mo, k)
  {
  }

  lemma BeatsSane(ms: seq<Moment>, k: nat, x: Stereo)
    requires k <= 15 && forall j :: 0 <= j < |ms| ==> OfBeat(ms[j], k, x)
    ensures forall j :: 0 <= j < |ms| ==> ms[j].Sane() && Ordinary(ms[j], k)
  {
    forall j | 0 <= j < |ms|
      ensures ms[j].Sane() && Ordinary(ms[j], k)
    {
      OfBeatMoment(ms[j], k, x);
    }
  }

  /** With IO waiting at one step, each tick leaves nine tenths of what the feedback is short of it. */
  lemma {:induction false} FeedbackRises(s: State, ms: seq<Moment>, k: nat, x: Stereo)
    requires Shaped(s) && k <= 15 && forall j :: 0 <= j < |ms| ==> OfBeat(ms[j], k, x)
    ensures forall j :: 0 <= j < |ms| ==> ms[j].Sane()
    ensures Target(k) - RoomRun(ROOMS[TECHNO], s, ms).feedback == Tail(Target(k) - s.feedback, 0.9, Ticks(ms))
    decreases |ms|
  {
    hide Target, Hung, Tail, Shaped;
    BeatsSane(ms, k, x);
    if ms == [] {
      TailNext(Target(k) - s.feedback, 0.9, 0);
    } else {
      var n := |ms| - 1;
      FeedbackRises(s, ms[..n], k, x);
      var t := RoomRun(ROOMS[TECHNO], s, ms[..n]);
      assert OfBeat(ms[n], k, x);
      FeedbackAt(t, ms[n]);
      if ms[n].Hang? {
        HungShort(t.feedback, k);
        TailDown(Target(k) - s.feedback, 0.9, Ticks(ms[..n]));
      }
    }
  }

  lemma FeedbackAt(t: State, mo: Moment)
    requires Shaped(t) && mo.Sane()
    ensures At(ROOMS[TECHNO], t, mo).feedback == if mo.Hang? then Hung(t.feedback, mo.ioWait) else t.feedback
  {
    hide Hung, Passed;
  }

  lemma HungShort(f: real, k: nat)
    ensures Target(k) - Hung(f, k) == Down(Target(k) - f, 0.9)
  {
  }

  /**
   Loud input and a feedback not under `fb`: the echo is not less than the loudest
   at `fb`, less what silence leaves of that.
  */
  lemma {:induction false} LoudCovers(s: State, ms: seq<Moment>, m: real, k: nat, fb: real)
    requires Shaped(s) && Bare(s.echo) && |s.echo.l| == LEN && k <= 15 && 0.0 <= fb <= s.feedback && EPS <= m
    requires s.feedback <= Target(k) && 0.0 <= fb <= ECHO_MAX && s.quiet == 0
    requires forall j :: 0 <= j < |ms| ==> OfBeat(ms[j], k, Stereo(m, m))
    ensures forall j :: 0 <= j < |ms| ==> ms[j].Sane()
    ensures var t := RoomRun(ROOMS[TECHNO], s, ms);
      && Bare(t.echo) && Covers(t.echo, Residue(LEN, m, Samples(ms), fb), m, fb)
      && fb <= t.feedback <= Target(k) && t.quiet == 0
    decreases |ms|
  {
    hide Bare, Covers, Residue, Steady, Hung, Target, Shaped;
    BeatsSane(ms, k, Stereo(m, m));
    ResidueNext(LEN, m, 0, fb);
    if ms == [] {
      BareShape(s.echo);
      SteadyCovers(s.echo, LEN, m, fb);
    } else {
      var n := |ms| - 1;
      LoudCovers(s, ms[..n], m, k, fb);
      var t := RoomRun(ROOMS[TECHNO], s, ms[..n]);
      assert OfBeat(ms[n], k, Stereo(m, m));
      MomentAt(t, ms[n], k);
      if ms[n].Sample? {
        LoudIsAudible(m);
        ResidueNext(LEN, m, Samples(ms[..n]), fb);
        CoversNext(t.echo, Residue(LEN, m, Samples(ms[..n]), fb), m, t.feedback, fb);
        BareNext(t.echo, Stereo(m, m), t.feedback);
      } else {
        HungBetween(t.feedback, k);
      }
    }
  }

  lemma BareShape(f: EchoLine)
    requires Bare(f)
    ensures f.l != [] && |f.l| == |f.r|
  {
  }

  lemma LoudIsAudible(m: real)
    requires EPS <= m
    ensures Audible(Stereo(m, m))
  {
  }

  lemma HungBetween(f: real, k: nat)
    requires f <= Target(k)
    ensures f <= Hung(f, k) <= Target(k)
  {
  }

  /** Through silence: not less than an echo that was less, at a feedback that is less. */
  lemma {:induction false} SilenceOver(s: State, ms: seq<Moment>, g: EchoLine, k: nat, more: real, fb: real)
    requires Shaped(s) && k <= 15 && Over(s.echo, g, |g.l|) && g.l != [] && g.r != []
    requires 0.0 <= fb < more <= s.feedback <= Target(k) && fb <= ECHO_MAX && s.quiet + Samples(ms) <= SIX
    requires forall j :: 0 <= j < |ms| ==> OfBeat(ms[j], k, QUIET)
    ensures forall j :: 0 <= j < |ms| ==> ms[j].Sane()
    ensures var t := RoomRun(ROOMS[TECHNO], s, ms);
      && Over(t.echo, Silent(g, Samples(ms), fb), |g.l| - Samples(ms))
      && more <= t.feedback <= Target(k) && t.quiet == s.quiet + Samples(ms)
    decreases |ms|
  {
    hide Over, Echoing, Hung, Target, Shaped;
    BeatsSane(ms, k, QUIET);
    if ms != [] {
      var n := |ms| - 1;
      SilenceOver(s, ms[..n], g, k, more, fb);
      var t := RoomRun(ROOMS[TECHNO], s, ms[..n]);
      assert OfBeat(ms[n], k, QUIET);
      MomentAt(t, ms[n], k);
      if ms[n].Sample? {
        QuietIsFaint();
        OverNext(t.echo, Silent(g, Samples(ms[..n]), fb), |g.l| - Samples(ms[..n]), t.feedback, fb);
      } else {
        HungBetween(t.feedback, k);
      }
    }
  }

  lemma QuietIsFaint()
    ensures !Audible(QUIET) && QUIET.Under(0.0)
  {
  }

  // ---- in figures ----

  /** Beats until the feedback is all but where IO waiting wants it, and until the echo is all but full. */
  const RISE := 60
  const FILL := 115

  function Short(k: nat): real {
    Target(k) - 0.0006
  }

  lemma SixtyTicks()
    ensures Between(0.9, 60, 0.0, 0.0018)
  {
    assert Pow(0.9, 1) == 0.9;
    assert Pow(0.9, 2) == 0.81;
    assert Between(0.9, 2, 0.81, 0.81);
    hide Pow, Between;
    Twice(0.9, 2, 0.81, 0.81, 0.0, 0.6561);
    Twice(0.9, 4, 0.0, 0.6561, 0.0, 0.43047);
    Twice(0.9, 8, 0.0, 0.43047, 0.0, 0.185305);
    Twice(0.9, 16, 0.0, 0.185305, 0.0, 0.034338);
    Sum(0.9, 32, 0.0, 0.034338, 16, 0.0, 0.185305, 0.0, 0.006364);
    Sum(0.9, 48, 0.0, 0.006364, 8, 0.0, 0.43047, 0.0, 0.0027396);
    Sum(0.9, 56, 0.0, 0.0027396, 4, 0.0, 0.6561, 0.0, 0.0018);
  }

  lemma NearTarget(k: nat, f: real, start: real)
    requires k <= 15 && start == 0.45 && Target(k) - f == Tail(Target(k) - start, 0.9, RISE)
    ensures Short(k) <= f <= Target(k)
  {
    SixtyTicks();
    var gap, p := Target(k) - start, Pow(0.9, 60);
    assert 0.0 <= gap <= 0.33;
    hide Pow;
    NonNegative(gap, p);
    NonNegative(0.33 - gap, p);
  }

  lemma FillPowers()
    ensures Between(SLOW, 552000, 0.0, 0.00035)
  {
    hide Pow, Between;
    SlowPowers();
    Twice(SLOW, 276000, 0.0, 0.01849, 0.0, 0.00035);
  }

  lemma {:induction false} ResidueFalls(m: real, n: nat, fb: real, r: real, keep: real)
    requires 0.0 <= m && Slow(r) && 0.0 <= fb <= ECHO_MAX && fb * LAG <= keep <= Pow(r, LEN) && 0.5 <= keep
    ensures EchoFades(Residue(LEN, m, n, fb), Tail(2.0 * Loudest(m, fb), r, n), r, 0.0)
  {
    hide Residue, EchoFades, Echoing, Pow, Slow, Loudest, Steady;
    ResidueNext(LEN, m, 0, fb);
    SlowRange(r);
    LoudestReturns(m, fb);
    var top := 2.0 * Loudest(m, fb);
    if n == 0 {
      TailNext(top, r, 0);
      SteadyFades(m, fb, r, keep);
    } else {
      ResidueFalls(m, n - 1, fb, r, keep);
      ResidueNext(LEN, m, n - 1, fb);
      PositiveTail(top, r, n - 1);
      QuietIsFaint();
      EchoNextFades(Residue(LEN, m, n - 1, fb), QUIET, fb, 0.0, Tail(top, r, n - 1), r, 0.0, keep);
      TailDown(top, r, n - 1);
    }
  }

  lemma SlowRange(r: real)
    requires Slow(r)
    ensures 0.0 <= r <= 1.0
  {
  }

  lemma PositiveTail(top: real, r: real, n: nat)
    requires 0.0 <= top && 0.0 <= r <= 1.0
    ensures 0.0 <= Tail(top, r, n)
  {
    PowRange(r, n);
    NonNegative(top, Pow(r, n));
  }

  lemma SteadyFades(m: real, fb: real, r: real, keep: real)
    requires 0.0 <= m && 0.0 <= r <= 1.0 && 0.0 <= fb <= ECHO_MAX && keep <= Pow(r, LEN) && 0.5 <= keep
    ensures EchoFades(Steady(LEN, m, fb), 2.0 * Loudest(m, fb), r, 0.0)
  {
    hide Fading, Pow, Loudest, Returned, Tail;
    LoudestReturns(m, fb);
    var b := Loudest(m, fb);
    KeptTail(2.0 * b, r, LEN, keep);
    NonNegative(keep - 0.5, 2.0 * b);
    var f := Steady(LEN, m, fb);
    StartFading(f.l, b, 2.0 * b, r, EchoBound(0.0));
    StartFading(f.r, b, 2.0 * b, r, EchoBound(0.0));
  }

  /** All but the loudest echo: within a thousandth of it in every cell. */
  predicate Near(f: EchoLine, m: real, fb: real)
    requires 0.0 <= fb <= ECHO_MAX
  {
    var b, c := Loudest(m, fb), Returned(m, fb);
    && |f.l| == |f.r| == LEN && c - 0.0008 * b <= f.darkL && b - 0.0008 * b <= f.darkR
    && forall i :: 0 <= i < LEN ==> b - 0.0008 * b <= f.l[i] && c - 0.0008 * b <= f.r[i]
  }

  lemma CoversNear(f: EchoLine, g: EchoLine, m: real, fb: real, top: real)
    requires 0.0 <= fb <= ECHO_MAX && 0.0 <= m && |f.l| == LEN && Covers(f, g, m, fb)
    requires EchoFades(g, top, SLOW, 0.0) && 0.0 <= top <= 0.0007 * Loudest(m, fb)
    ensures Near(f, m, fb)
  {
    hide Fading, Loudest, Returned;
    FadingWithin(g.l, top, SLOW, EchoBound(0.0));
    FadingWithin(g.r, top, SLOW, EchoBound(0.0));
    LoudestReturns(m, fb);
  }

  lemma EmptyIsBare(s: State)
    requires Empty(ROOMS[TECHNO], s)
    ensures Shaped(s) && Bare(s.echo) && |s.echo.l| == LEN && s.feedback == 0.45 && s.quiet == 0
  {
    hide SideUnder, TapeUnder, Tuned;
  }

  lemma NewFeedback(k: nat)
    requires k <= 15
    ensures 0.45 <= Target(k) && 0.45 <= Short(k) + 0.0006 && 0.0 <= Short(k) <= ECHO_MAX
  {
  }

  /** Six seconds of it: the feedback is all but where IO waiting wants it. */
  lemma Rises(s: State, m: real, k: nat)
    requires Empty(ROOMS[TECHNO], s) && EPS <= m && k <= 15
    ensures var before := Beats(RISE, k, Stereo(m, m));
      && Shaped(s) && (forall j :: 0 <= j < |before| ==> before[j].Sane())
      && var u := RoomRun(ROOMS[TECHNO], s, before);
      Bare(u.echo) && |u.echo.l| == LEN && Short(k) <= u.feedback <= Target(k) && u.quiet == 0
  {
    hide Empty, Beats, Bare, Covers, Residue, Shaped, Short, Target;
    var x := Stereo(m, m);
    EmptyIsBare(s);
    NewFeedback(k);
    BeatsCount(RISE, k, x);
    BeatsSane(Beats(RISE, k, x), k, x);
    var u := RoomRun(ROOMS[TECHNO], s, Beats(RISE, k, x));
    FeedbackRises(s, Beats(RISE, k, x), k, x);
    NearTarget(k, u.feedback, s.feedback);
    LoudCovers(s, Beats(RISE, k, x), m, k, 0.45);
    CoversLength(u.echo, Residue(LEN, m, RISE * TICK, 0.45), m, 0.45);
  }

  /** From a new room, seventeen and a half seconds of one loud sound with IO waiting at step `k`. */
  lemma FillsUp(s: State, m: real, k: nat)
    requires Empty(ROOMS[TECHNO], s) && EPS <= m && k <= 15
    ensures var before := Beats(RISE + FILL, k, Stereo(m, m));
      && Shaped(s) && (forall j :: 0 <= j < |before| ==> before[j].Sane()) && 0.0 <= Short(k) <= ECHO_MAX
      && var t := RoomRun(ROOMS[TECHNO], s, before);
      Near(t.echo, m, Short(k)) && Short(k) <= t.feedback <= Target(k) && t.quiet == 0
  {
    hide Empty, Beats, Near, Bare, Shaped, Short, Target, RoomRun;
    var x := Stereo(m, m);
    NewFeedback(k);
    Rises(s, m, k);
    var u := RoomRun(ROOMS[TECHNO], s, Beats(RISE, k, x));
    Fills(u, m, k);
    BeatsAppend(RISE, FILL, k, x);
    RunAppend(ROOMS[TECHNO], s, Beats(RISE, k, x), Beats(FILL, k, x));
  }

  /** From there on the echo fills. */
  lemma Fills(u: State, m: real, k: nat)
    requires Shaped(u) && Bare(u.echo) && |u.echo.l| == LEN && u.quiet == 0
    requires EPS <= m && k <= 15 && Short(k) <= u.feedback <= Target(k)
    ensures var more := Beats(FILL, k, Stereo(m, m));
      && (forall j :: 0 <= j < |more| ==> more[j].Sane()) && 0.0 <= Short(k) <= ECHO_MAX
      && var t := RoomRun(ROOMS[TECHNO], u, more);
      Near(t.echo, m, Short(k)) && Short(k) <= t.feedback <= Target(k) && t.quiet == 0
  {
    hide Beats, Near, Bare, Covers, Residue, Shaped, Short, Target;
    var x := Stereo(m, m);
    NewFeedback(k);
    BeatsCount(FILL, k, x);
    BeatsSane(Beats(FILL, k, x), k, x);
    LoudCovers(u, Beats(FILL, k, x), m, k, Short(k));
    FilledFar(RoomRun(ROOMS[TECHNO], u, Beats(FILL, k, x)).echo, m, Short(k));
  }

  lemma CoversLength(f: EchoLine, g: EchoLine, m: real, fb: real)
    requires 0.0 <= fb <= ECHO_MAX && Covers(f, g, m, fb)
    ensures |f.l| == |g.l|
  {
  }

  lemma FilledFar(f: EchoLine, m: real, fb: real)
    requires 0.0 <= fb <= ECHO_MAX && 0.0 <= m && Covers(f, Residue(LEN, m, 552000, fb), m, fb)
    ensures Near(f, m, fb)
  {
    hide Near, Covers, EchoFades, Loudest, Residue, Pow, Between, Lasts;
    SlowLasts();
    SlowPowers();
    FillPowers();
    SlowEnough(SLOW);
    CoversLength(f, Residue(LEN, m, 552000, fb), m, fb);
    LengthKept(fb);
    ResidueFalls(m, 552000, fb, SLOW, 0.7824);
    LoudestReturns(m, fb);
    TopFallen(Loudest(m, fb));
    CoversNear(f, Residue(LEN, m, 552000, fb), m, fb, Tail(2.0 * Loudest(m, fb), SLOW, 552000));
  }

  lemma LengthKept(fb: real)
    requires 0.0 <= fb <= ECHO_MAX && Between(SLOW, 16875, 0.7824, 1.0)
    ensures fb * LAG <= 0.7824 <= Pow(SLOW, LEN)
  {
    hide Pow;
  }

  lemma TopFallen(b: real)
    requires 0.0 <= b && Between(SLOW, 552000, 0.0, 0.00035)
    ensures 0.0 <= Tail(2.0 * b, SLOW, 552000) <= 0.0007 * b
  {
    hide Pow;
    NonNegative(2.0 * b, Pow(SLOW, 552000));
    NonNegative(2.0 * b, 0.00035 - Pow(SLOW, 552000));
  }

  // ---- exactly when ----

  /** How much louder the loudest echo is at the next step of IO waiting. */
  lemma LoudestGap(low: real, fb: real)
    requires 0.45 <= low && low + 0.02 <= fb <= ECHO_MAX
    ensures Loudest(1.0, low) + 0.01 <= Loudest(1.0, fb) <= 1.54
    ensures Returned(1.0, low) + 0.0045 <= Returned(1.0, fb)
    ensures 0.6 <= Loudest(1.0, low) && 0.0 <= Returned(1.0, low)
  {
    var p, q := low * low, fb * fb;
    SquaresApart(low, fb);
    LoudestIs(1.0, low, p);
    LoudestIs(1.0, fb, q);
    LoudestReturns(1.0, low);
    LoudestReturns(1.0, fb);
    var b, c := Loudest(1.0, low), Loudest(1.0, fb);
    hide Loudest;
    AtLeastSixTenths(b, p);
    Apart(b, c, p, q);
    BackApart(b, c, low, fb);
    ReturnedIs(1.0, low);
    ReturnedIs(1.0, fb);
  }

  lemma SquaresApart(low: real, fb: real)
    requires 0.45 <= low && low + 0.02 <= fb <= ECHO_MAX
    ensures 0.2 <= low * low && low * low + 0.018 <= fb * fb
    ensures fb * fb <= 0.6084
  {
    SquaresOver(0.45, low, 0.0);
    SquaresOver(low, fb, 0.02);
    SquaresOver(fb, ECHO_MAX, 0.0);
  }

  lemma SquaresOver(a: real, b: real, gap: real)
    requires 0.0 <= a && 0.0 <= gap && a + gap <= b
    ensures a * a + gap * (a + b) <= b * b
  {
    NonNegative(b - a - gap, a + b);
    var c := a + b;
    assert (b - a - gap) * c == (b - a) * c - gap * c;
    assert (b - a) * c == b * b - a * a;
  }

  lemma AtLeastSixTenths(b: real, p: real)
    requires 0.0 <= b && 0.0 <= p && b * (1.0 - p) == 0.6
    ensures 0.6 <= b
  {
    NonNegative(b, p);
    assert b * (1.0 - p) == b - b * p;
  }

  lemma Apart(b: real, c: real, p: real, q: real)
    requires 0.6 <= b && 0.0 <= c && 0.2 <= p && p + 0.018 <= q <= 0.6084
    requires b * (1.0 - p) == 0.6 && c * (1.0 - q) == 0.6
    ensures b + 0.01 <= c
    ensures c <= 1.54
  {
    var d := q - p;
    NonNegative(b - 0.6, d - 0.018);
    assert (b - 0.6) * (d - 0.018) == b * d - 0.018 * b - 0.6 * (d - 0.018);
    assert b * (1.0 - q) == b * (1.0 - p) - b * d;
    assert (c - b - 0.01) * (1.0 - q) == c * (1.0 - q) - b * (1.0 - q) - 0.01 * (1.0 - q);
    NotNegative(c - b - 0.01, 1.0 - q);
    NonNegative(c, 0.6084 - q);
    assert c * (0.6084 - q) == c * (1.0 - q) - 0.3916 * c;
  }

  lemma NotNegative(x: real, d: real)
    requires 0.0 < d && 0.0 <= x * d
    ensures 0.0 <= x
  {
    if x < 0.0 {
      Positive(-x, d);
    }
  }

  lemma BackApart(b: real, c: real, low: real, fb: real)
    requires 0.0 <= b && b + 0.01 <= c && 0.45 <= low <= fb
    ensures Back(b, low) + 0.0045 <= Back(c, fb)
  {
    NonNegative(c, fb - low);
    NonNegative(c - b - 0.01, low);
    assert (c - b - 0.01) * low == c * low - b * low - 0.01 * low;
    assert c * (fb - low) == c * fb - c * low;
  }

  lemma NearIsOver(f: EchoLine, low: real, fb: real)
    requires 0.45 <= low && low + 0.02 <= fb <= ECHO_MAX && Near(f, 1.0, fb)
    ensures Over(f, Steady(LEN, 1.0, low), LEN)
  {
    hide Loudest, Returned;
    LoudestGap(low, fb);
    LoudestReturns(1.0, fb);
  }

  lemma StepsApart(k: nat, chosen: nat)
    requires chosen < k <= 15
    ensures 0.45 <= Target(chosen) && Target(chosen) + 0.02 <= Short(k) <= ECHO_MAX
  {
  }

  /** The run that fails: loud beats, then six seconds of silent ones, all at step `k`. */
  lemma BeatsLife(s: State, m: real, k: nat)
    requires Empty(ROOMS[TECHNO], s) && EPS <= m && k <= 15
    ensures Life(s, Beats(RISE + FILL, k, Stereo(m, m)), Beats(60, k, QUIET), m, 0.0, k)
  {
    hide Empty, Beats;
    var x := Stereo(m, m);
    BeatsCount(RISE + FILL, k, x);
    BeatsCount(60, k, QUIET);
    LoudIsAudible(m);
    QuietIsFaint();
    BeatsSane(Beats(RISE + FILL, k, x), k, x);
    BeatsSane(Beats(60, k, QUIET), k, QUIET);
    var before, ms := Beats(RISE + FILL, k, x), Beats(60, k, QUIET);
    forall j | 0 <= j < |before|
      ensures before[j].Under(m)
    {
      assert OfBeat(before[j], k, x);
    }
    forall j | 0 <= j < |ms|
      ensures Faint(ms[j], 0.0)
    {
      assert OfBeat(ms[j], k, QUIET);
    }
    assert OfBeat(before[|before| - 1], k, x);
  }

  lemma LouderExceeds(s: State, k: nat, chosen: nat)
    requires Empty(ROOMS[TECHNO], s) && chosen < k <= 15
    ensures 0.0 <= Target(chosen) <= ECHO_MAX
    ensures !Rested(s, Beats(RISE + FILL, k, Stereo(1.0, 1.0)), Beats(60, k, QUIET),
                    Level(LEN, 1.0, SIX, Target(chosen)) + EchoBound(0.0))
  {
    hide Empty, Beats, Near, Over, Shaped, Steady, Target, Short;
    var low, more := Target(chosen), Short(k);
    TargetRange(chosen);
    StepsApart(k, chosen);
    FillsUp(s, 1.0, k);
    var t := RoomRun(ROOMS[TECHNO], s, Beats(RISE + FILL, k, Stereo(1.0, 1.0)));
    NearIsOver(t.echo, low, more);
    BeatsCount(60, k, QUIET);
    SilenceOver(t, Beats(60, k, QUIET), Steady(LEN, 1.0, low), k, more, low);
    OverLevel(RoomRun(ROOMS[TECHNO], t, Beats(60, k, QUIET)).echo, low);
  }

  lemma OverLevel(f: EchoLine, low: real)
    requires 0.0 <= low <= ECHO_MAX && Over(f, Silent(Steady(LEN, 1.0, low), SIX, low), LEN - SIX)
    ensures var bound := Level(LEN, 1.0, SIX, low) + EchoBound(0.0); !Within(f.l, bound) || !Within(f.r, bound)
  {
    hide Silent, Steady;
    assert f.l != [];
  }

  /** Every run of the code's room in which IO waiting never passes step `k` rests within the level of step `chosen`. */
  ghost predicate Reaches(k: nat, chosen: nat)
    requires k <= 15 && chosen <= 15
  {
    TargetRange(chosen);
    forall s, before, ms, m, e :: Life(s, before, ms, m, e, k) ==>
      Rested(s, before, ms, Level(LEN, m, SIX, Target(chosen)) + EchoBound(e))
  }

  lemma LifeAllows(s: State, before: seq<Moment>, ms: seq<Moment>, m: real, e: real, k: nat, more: nat)
    requires Life(s, before, ms, m, e, k) && k <= more
    ensures Life(s, before, ms, m, e, more)
  {
    hide Empty, Audible, Stereo.Under;
  }

  /**
   Exactly when: take for each step of IO waiting the level that the loudest echo at
   that step keeps through six seconds.  Every run from a new room, ticks and all,
   rests within the level of step `chosen` if and only if IO waiting never passes it.
  */
  lemma TechnoRestsExactly(k: nat, chosen: nat)
    requires k <= 15 && chosen <= 15
    ensures Reaches(k, chosen) <==> k <= chosen
  {
    hide Reaches;
    if k <= chosen {
      Suffices(k, chosen);
    } else {
      Exceeds(k, chosen);
    }
  }

  lemma Suffices(k: nat, chosen: nat)
    requires k <= chosen <= 15
    ensures Reaches(k, chosen)
  {
    hide Life, Rested, Level, EchoBound, Target, Empty;
    TargetRange(chosen);
    forall s, before, ms, m, e | Life(s, before, ms, m, e, k)
      ensures Rested(s, before, ms, Level(LEN, m, SIX, Target(chosen)) + EchoBound(e))
    {
      LifeAllows(s, before, ms, m, e, k, chosen);
      LifeRests(s, before, ms, m, e, chosen);
    }
  }

  lemma Exceeds(k: nat, chosen: nat)
    requires chosen < k <= 15
    ensures !Reaches(k, chosen)
  {
    hide Life, Rested, Level, EchoBound, Target, Empty, Beats;
    TargetRange(chosen);
    var s := NewState(ROOMS[TECHNO]);
    EveryRoomIsSane(TECHNO);
    NewIsEmpty(ROOMS[TECHNO]);
    BeatsLife(s, 1.0, k);
    LouderExceeds(s, k, chosen);
  }

  /** The level in figures: while IO waiting stays at or under step 3, less than a sixteen-thousandth. */
  lemma LowAtThree(m: real)
    requires 0.0 <= m
    ensures 0.0 <= Target(3) <= ECHO_MAX && Level(LEN, m, SIX, Target(3)) <= m / 16000.0
  {
    hide Residue, Pow, Slow, Loudest, EchoFades;
    assert Target(3) == 0.516;
    FastLasts();
    FastPowers();
    LongerLess(LEN);
    SlowEnough(FAST);
    ResidueFalls(m, SIX, 0.516, FAST, 0.5346);
    LoudestAtThree(m);
    LoudestReturns(m, 0.516);
    var top := Tail(2.0 * Loudest(m, 0.516), FAST, SIX);
    OldestFaded(Residue(LEN, m, SIX, 0.516), top);
    PowDecreases(FAST, 285120, SIX);
    NonNegative(2.0 * Loudest(m, 0.516), 0.0000373 - Pow(FAST, SIX));
  }

  lemma LoudestAtThree(m: real)
    requires 0.0 <= m
    ensures Loudest(m, 0.516) <= 0.818 * m
  {
    LoudestIs(m, 0.516, 0.266256);
  }

  lemma OldestFaded(f: EchoLine, top: real)
    requires EchoFades(f, top, FAST, 0.0)
    ensures f.l != [] && f.r != [] && MaxR(f.l[0], f.r[0]) <= top
  {
    hide Fading;
    FirstCell(f.l, top, FAST, EchoBound(0.0));
    FirstCell(f.r, top, FAST, EchoBound(0.0));
  }

  // ---- what a long wait leaves ----

  /** No cell quieter than `b`, nor a low-pass. */
  predicate AtLeast(f: EchoLine, b: real) {
    && |f.l| == |f.r| == LEN && b <= f.darkL && b <= f.darkR
    && forall i :: 0 <= i < LEN ==> b <= f.l[i] && b <= f.r[i]
  }

  /** Partway through a pass: the cells not read yet, and those written since. */
  predicate PartWay(f: EchoLine, b: real, less: real, n: int) {
    && |f.l| == |f.r| == LEN && 0 <= n <= LEN && b <= f.darkL && b <= f.darkR
    && (forall i :: 0 <= i < LEN - n ==> b <= f.l[i] && b <= f.r[i])
    && forall i :: LEN - n <= i < LEN ==> less <= f.l[i] && less <= f.r[i]
  }

  lemma PartWayNext(f: EchoLine, b: real, fb: real, n: int)
    requires PartWay(f, b, Back(b, fb), n) && n < LEN && 0.0 <= b && 0.0 <= fb <= 1.0
    ensures f.l != [] && f.r != []
    ensures PartWay(Echoing(f, QUIET, fb), b, Back(b, fb), n + 1)
  {
    hide Back, Soft;
    QuietWrites(f, fb);
    SoftAtLeast(f.r[0], f.darkL, b);
    SoftAtLeast(f.l[0], f.darkR, b);
    BackLess(b, Soft(f.r[0], f.darkL, DARK), fb);
    BackLess(b, Soft(f.l[0], f.darkR, DARK), fb);
  }

  lemma SoftAtLeast(x: real, y: real, b: real)
    requires b <= x && b <= y
    ensures b <= Soft(x, y, DARK)
  {
  }

  lemma {:induction false} PassKeeps(f: EchoLine, b: real, fb: real, n: nat)
    requires AtLeast(f, b) && 0.0 <= b && 0.0 <= fb <= 1.0 && n <= LEN
    ensures f.l != [] && f.r != []
    ensures PartWay(Silent(f, n, fb), b, Back(b, fb), n) && AtLeast(Silent(f, n, fb), Back(b, fb))
  {
    hide Back, PartWay, AtLeast, Echoing;
    LeastShape(f, b);
    BackLess(b, b, fb);
    if n == 0 {
      Unstarted(f, b, fb);
    } else {
      PassKeeps(f, b, fb, n - 1);
      PartWayNext(Silent(f, n - 1, fb), b, fb, n - 1);
    }
    StillAtLeast(Silent(f, n, fb), b, Back(b, fb), n);
  }

  lemma LeastShape(f: EchoLine, b: real)
    requires AtLeast(f, b)
    ensures |f.l| == |f.r| == LEN
  {
  }

  lemma Unstarted(f: EchoLine, b: real, fb: real)
    requires AtLeast(f, b)
    ensures PartWay(f, b, Back(b, fb), 0)
  {
  }

  lemma StillAtLeast(f: EchoLine, b: real, less: real, n: int)
    requires PartWay(f, b, less, n) && less <= b
    ensures AtLeast(f, less)
  {
  }

  lemma {:induction false} SilentTwice(f: EchoLine, m: nat, n: nat, fb: real)
    requires f.l != [] && f.r != []
    ensures Silent(f, m + n, fb) == Silent(Silent(f, m, fb), n, fb)
  {
    hide Echoing;
    if n > 0 {
      SilentTwice(f, m, n - 1, fb);
    }
  }

  /** After `k` passes of silence, or fewer samples, the feedback's `k`-th power is left at least. */
  lemma {:induction false} PassesKeep(f: EchoLine, b: real, k: nat, n: nat, fb: real)
    requires AtLeast(f, b) && 0.0 <= b && 0.0 <= fb <= 1.0 && n <= k * LEN
    ensures f.l != [] && f.r != []
    ensures AtLeast(Silent(f, n, fb), Tail(b, fb, k))
  {
    hide Back, AtLeast, Tail, Echoing;
    LeastShape(f, b);
    if k == 0 {
      TailNext(b, fb, 0);
    } else {
      var so := if n <= (k - 1) * LEN then n else (k - 1) * LEN;
      PassesKeep(f, b, k - 1, so, fb);
      PositiveTail(b, fb, k - 1);
      PassKeeps(Silent(f, so, fb), Tail(b, fb, k - 1), fb, n - so);
      SilentTwice(f, so, n - so, fb);
      TailDown(b, fb, k - 1);
      DownIsBack(Tail(b, fb, k - 1), fb);
    }
  }

  lemma DownIsBack(x: real, fb: real)
    ensures Down(x, fb) == Back(x, fb)
  {
  }

  function Flat(b: real): EchoLine {
    EchoLine(seq(LEN, _ => b), seq(LEN, _ => b), b, b)
  }

  lemma NearIsOverFlat(f: EchoLine, m: real)
    requires EPS <= m && Near(f, m, 0.7794)
    ensures Over(f, Flat(1.19 * m), LEN)
  {
    LoudestIs(m, 0.7794, 0.60746436);
    LoudestReturns(m, 0.7794);
    hide Loudest;
  }

  lemma EighteenPasses(b: real)
    requires 0.0 <= b
    ensures 0.0111 * b <= Tail(b, 0.779, 18)
  {
    assert Pow(0.779, 1) == 0.779;
    assert Pow(0.779, 2) == 0.606841;
    assert Between(0.779, 2, 0.606841, 0.606841);
    hide Pow;
    Twice(0.779, 2, 0.606841, 0.606841, 0.36825, 0.3683);
    Twice(0.779, 4, 0.36825, 0.3683, 0.1356, 0.1357);
    Twice(0.779, 8, 0.1356, 0.1357, 0.01838, 0.0185);
    Sum(0.779, 16, 0.01838, 0.0185, 2, 0.606841, 0.606841, 0.0111, 1.0);
    NonNegative(b, Pow(0.779, 18) - 0.0111);
  }

  /** The room rests and no cell of its echo is quieter than `b`. */
  predicate StillHolds(s: State, before: seq<Moment>, ms: seq<Moment>, b: real) {
    && Shaped(s)
    && (forall j :: 0 <= j < |before| ==> before[j].Sane()) && (forall j :: 0 <= j < |ms| ==> ms[j].Sane())
    && var t := RoomRun(ROOMS[TECHNO], RoomRun(ROOMS[TECHNO], s, before), ms);
      t.quiet == RATE * 6 && AtLeast(t.echo, b)
  }

  /**
   The run that leaves the most, from a new room with the code's own ticks: seventeen
   and a half seconds of sound with IO waiting at the last step, then six quiet seconds
   at that step.  Over a hundredth of the sound is left in every cell, and stays there.
  */
  lemma TechnoKeepsItsEcho(s: State, m: real)
    requires Empty(ROOMS[TECHNO], s) && EPS <= m
    ensures var before, ms := Beats(RISE + FILL, 15, Stereo(m, m)), Beats(60, 15, QUIET);
      Life(s, before, ms, m, 0.0, 15) && StillHolds(s, before, ms, 0.013 * m)
  {
    hide Empty, Beats, Near, Shaped, Life, AtLeast, RoomRun;
    BeatsLife(s, m, 15);
    LastStep();
    FillsUp(s, m, 15);
    SilenceHolds(RoomRun(ROOMS[TECHNO], s, Beats(RISE + FILL, 15, Stereo(m, m))), m);
  }

  lemma LastStep()
    ensures Target(15) == 0.78 && Short(15) == 0.7794
  {
  }

  lemma SilenceHolds(t: State, m: real)
    requires Shaped(t) && EPS <= m && Near(t.echo, m, 0.7794) && 0.7794 <= t.feedback <= 0.78 && t.quiet == 0
    ensures var ms := Beats(60, 15, QUIET);
      && (forall j :: 0 <= j < |ms| ==> ms[j].Sane())
      && var u := RoomRun(ROOMS[TECHNO], t, ms);
      u.quiet == SIX && AtLeast(u.echo, 0.013 * m)
  {
    hide Beats, Near, Over, Shaped, Flat, AtLeast, RoomRun, Target;
    LastStep();
    NearIsOverFlat(t.echo, m);
    FlatIs(1.19 * m);
    BeatsCount(60, 15, QUIET);
    SilenceOver(t, Beats(60, 15, QUIET), Flat(1.19 * m), 15, 0.7794, 0.779);
    PassesKeep(Flat(1.19 * m), 1.19 * m, 18, SIX, 0.779);
    EighteenPasses(1.19 * m);
    OverLeast(RoomRun(ROOMS[TECHNO], t, Beats(60, 15, QUIET)).echo, Silent(Flat(1.19 * m), SIX, 0.779),
              Tail(1.19 * m, 0.779, 18), 0.013 * m);
  }

  lemma FlatIs(b: real)
    ensures Flat(b).l != [] && |Flat(b).l| == |Flat(b).r| == LEN && AtLeast(Flat(b), b)
  {
  }

  lemma OverLeast(f: EchoLine, g: EchoLine, b: real, c: real)
    requires Over(f, g, LEN - SIX) && AtLeast(g, b) && c <= b
    ensures AtLeast(f, c)
  {
  }
}
