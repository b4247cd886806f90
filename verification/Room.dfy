/** The room's rings, updated in place at every sample: each is one of the delay lines of `Reverb`. */
module Room {
  import opened Reals
  import opened Comb
  import opened Reverb
  import opened Envelope
  import opened Resting

  // ---- the tape ----

  class Wobble {
    const l: array<real>
    const r: array<real>
    var at: nat

    ghost predicate Valid()
      reads this, l, r
    {
      l.Length == r.Length == WOB && l != r && at < WOB
    }

    ghost function Now(): (t: Tape)
      requires Valid()
      reads this, l, r
      ensures |t.l| == |t.r| == WOB
    {
      Tape(FromPos(l[..], at), FromPos(r[..], at))
    }

    constructor ()
      ensures Valid() && fresh(l) && fresh(r)
      ensures Within(Now().l, 0.0) && Within(Now().r, 0.0)
    {
      l, r := new real[WOB](_ => 0.0), new real[WOB](_ => 0.0);
      at := 0;
    }

    /** `sine` is the sine of the wobble's phase. */
    method Tick(x: Stereo, wobble: real, sine: real) returns (out: Stereo)
      requires Valid() && 0.0 < wobble <= 1.0 && Mag(sine) <= 1.0
      modifies this, l, r
      ensures Valid() && Now() == Recorded(old(Now()), x)
      ensures out == Played(Now(), Behind(wobble, sine))
    {
      hide Mag, Blend, Behind, FromPos, ReadBack;
      Turn(l[..], at, x.l);
      Turn(r[..], at, x.r);
      l[at] := x.l;
      r[at] := x.r;
      assert l[..] == old(l[..])[at := x.l] && r[..] == old(r[..])[at := x.r];
      var b := Behind(wobble, sine);
      var from := at as real - b;
      while from < 0.0
        invariant from == at as real - b || (from == at as real - b + WOB as real && at as real - b < 0.0)
        decreases if from < 0.0 then 1 else 0
      {
        from := from + WOB as real;
      }
      var i0 := from.Floor % WOB;
      var i1 := (i0 + 1) % WOB;
      var frac := from - from.Floor as real;
      TapeRead(l[..], at, b, from);
      TapeRead(r[..], at, b, from);
      out := Stereo(Blend(l[i0], l[i1], frac), Blend(r[i0], r[i1], frac));
      at := (at + 1) % WOB;
    }
  }

  /** The two slots around `at - b` are the line's, read `b` samples before its newest. */
  lemma TapeRead(buf: seq<real>, at: nat, b: real, from: real)
    requires |buf| == WOB && at < WOB && 96.0 <= b <= 384.0
    requires from == (if at as real < b then at as real - b + WOB as real else at as real - b)
    ensures 0 <= from.Floor
    ensures Blend(buf[from.Floor % WOB], buf[(from.Floor % WOB + 1) % WOB], from - from.Floor as real)
      == ReadBack(FromPos(buf, (at + 1) % WOB), b)
  {
    hide Blend;
    var c, line := Ceiling(b), FromPos(buf, (at + 1) % WOB);
    assert from.Floor == if at < c then at - c + WOB else at - c;
    assert line[WOB - 1 - c] == buf[from.Floor % WOB];
    assert line[WOB - c] == buf[(from.Floor % WOB + 1) % WOB];
  }

  // ---- the echo ----

  function Onward(at: nat, len: nat): (to: nat)
    requires at < len
    ensures to == if at + 1 >= len then 0 else at + 1
  {
    (at + 1) % len
  }

  class Echo {
    const l: array<real>
    const r: array<real>
    var at: nat
    var darkL: real
    var darkR: real
    var feedback: real

    ghost predicate Valid()
      reads this, l, r
    {
      0 < l.Length == r.Length && l != r && at < l.Length
    }

    ghost function Now(): (e: EchoLine)
      requires Valid()
      reads this, l, r
      ensures |e.l| == |e.r| == l.Length
    {
      EchoLine(FromPos(l[..], at), FromPos(r[..], at), darkL, darkR)
    }

    constructor (len: nat, feedback: real)
      requires 0 < len
      ensures Valid() && fresh(l) && fresh(r) && this.feedback == feedback && l.Length == len
      ensures EchoUnder(Now(), 0.0)
    {
      l, r := new real[len](_ => 0.0), new real[len](_ => 0.0);
      at, darkL, darkR := 0, 0.0, 0.0;
      this.feedback := feedback;
    }

    /** A tick in techno: a tenth of the way to what IO waiting asks for, and never out of its range. */
    method Hang(ioWait: nat)
      requires ioWait <= 15
      modifies `feedback
      ensures feedback == Hung(old(feedback), ioWait)
      ensures feedback - Target(ioWait) == 0.9 * (old(feedback) - Target(ioWait))
      ensures 0.45 <= old(feedback) <= ECHO_MAX ==> 0.45 <= feedback <= ECHO_MAX
    {
      var fb := 0.45 + 0.33 * ioWait as real / 15.0;
      feedback := feedback + 0.1 * (fb - feedback);
    }

    method Tick(x: Stereo, mix: real) returns (out: Stereo)
      requires Valid()
      modifies `at, `darkL, `darkR, l, r
      ensures Valid() && Now() == Echoing(old(Now()), x, feedback) && out == Echoed(old(Now()), x, mix)
    {
      hide Back, FromPos, Onward;
      var el, er := l[at], r[at];
      darkL := darkL + 0.25 * (er - darkL);
      darkR := darkR + 0.25 * (el - darkR);
      var nextL := 0.5 * (x.l + x.r) * 0.6 + Back(darkL, feedback);
      var nextR := Back(darkR, feedback);
      Turn(l[..], at, nextL);
      Turn(r[..], at, nextR);
      l[at] := nextL;
      r[at] := nextR;
      assert l[..] == old(l[..])[at := nextL] && r[..] == old(r[..])[at := nextR];
      at := Onward(at, l.Length);
      out := Stereo(x.l + Back(el, mix), x.r + Back(er, mix));
    }
  }

  // ---- one side of the reverb ----

  /** Filters that share nothing. */
  ghost predicate Apart(fs: seq<Filter>)
    reads {}
  {
    forall i, j :: 0 <= i < j < |fs| ==> fs[i] != fs[j] && fs[i].buf != fs[j].buf
  }

  ghost predicate AllValid(fs: seq<Filter>)
    reads fs
  {
    forall i :: 0 <= i < |fs| ==> fs[i].Valid()
  }

  ghost function Lines(fs: seq<Filter>): (ds: seq<Delay>)
    requires AllValid(fs)
    reads fs, set f | f in fs :: f.buf
    ensures |ds| == |fs| && Held(ds)
  {
    seq(|fs|, i requires 0 <= i < |fs| && AllValid(fs) reads fs, set f | f in fs :: f.buf => fs[i].Line())
  }

  /** Of the tunes `from` on, with nothing in them. */
  ghost predicate Silent(fs: seq<Filter>, from: nat, side: nat)
    requires from + |fs| <= 12 && side < 2
    reads fs, set f | f in fs :: f.buf
  {
    AllValid(fs) && forall i :: 0 <= i < |fs| ==>
      |fs[i].Line().cells| == Length(from + i, side) && Bounded(fs[i].Line(), 0.0)
  }

  lemma NoneSilent(from: nat, side: nat)
    requires from <= 12 && side < 2
    ensures Silent([], from, side) && Apart([])
  {
  }

  lemma OneMoreSilent(fs: seq<Filter>, f: Filter, from: nat, side: nat)
    requires from + |fs| < 12 && side < 2 && Silent(fs, from, side) && Apart(fs)
    requires f.Valid() && f.buf.Length == Length(from + |fs|, side) && Bounded(f.Line(), 0.0)
    requires forall i :: 0 <= i < |fs| ==> fs[i] != f && fs[i].buf != f.buf
    ensures Silent(fs + [f], from, side) && Apart(fs + [f])
  {
    hide Length, Bounded;
  }

  /** New filters of the tunes `from` up to `to`, on one side. */
  method Filters(from: nat, to: nat, side: nat) returns (fs: seq<Filter>, ghost objs: set<object>)
    requires from <= to <= 12 && side < 2
    ensures |fs| == to - from && Apart(fs) && Silent(fs, from, side)
    ensures fresh(objs) && forall i :: 0 <= i < |fs| ==> fs[i] in objs && fs[i].buf in objs
  {
    hide Length, Silent, Apart;
    fs, objs := [], {};
    NoneSilent(from, side);
    for k := from to to
      invariant |fs| == k - from && Apart(fs) && Silent(fs, from, side)
      invariant fresh(objs) && forall i :: 0 <= i < |fs| ==> fs[i] in objs && fs[i].buf in objs
    {
      assert 0 < Length(k, side);
      var f := new Filter(Length(k, side));
      OneMoreSilent(fs, f, from, side);
      fs, objs := fs + [f], objs + {f, f.buf};
    }
  }

  method OneComb(fs: seq<Filter>, k: nat, input: real, style: Style) returns (out: real)
    requires AllValid(fs) && Apart(fs) && k < |fs|
    modifies fs[k], fs[k].buf
    ensures AllValid(fs) && out == old(Lines(fs)[k].cells[0])
    ensures Lines(fs) == old(Lines(fs))[k := Next(old(Lines(fs)[k]), input, style.feedback, style.damping)]
  {
    hide Next;
    out := fs[k].Comb(input, style.feedback, style.damping);
  }

  method OneAllpass(fs: seq<Filter>, k: nat, input: real) returns (out: real)
    requires AllValid(fs) && Apart(fs) && k < |fs|
    modifies fs[k], fs[k].buf
    ensures AllValid(fs) && out == old(Lines(fs)[k].cells[0]) - input
    ensures Lines(fs) == old(Lines(fs))[k := AllNext(old(Lines(fs)[k]), input)]
  {
    out := fs[k].Allpass(input);
  }

  /** The combs side by side, all fed the same. */
  method AllCombs(fs: seq<Filter>, input: real, style: Style) returns (w: real)
    requires AllValid(fs) && Apart(fs)
    modifies fs, set f | f in fs :: f.buf
    ensures AllValid(fs) && Lines(fs) == CombsNext(old(Lines(fs)), input, style)
    ensures w == CombSum(old(Lines(fs)), |fs|)
  {
    hide Apart, AllValid, Lines, Next;
    ghost var was := Lines(fs);
    w := 0.0;
    for k := 0 to |fs|
      invariant AllValid(fs) && w == CombSum(was, k)
      invariant forall i :: 0 <= i < |fs| ==>
        Lines(fs)[i] == if i < k then Next(was[i], input, style.feedback, style.damping) else was[i]
    {
      var out := OneComb(fs, k, input, style);
      w := w + out;
    }
  }

  lemma ThroughNone(alls: seq<Delay>, input: real)
    requires Held(alls)
    ensures Through(alls, 0, input) == input
  {
  }

  lemma ThroughNext(alls: seq<Delay>, k: nat, input: real)
    requires Held(alls) && k < |alls|
    ensures Through(alls, k + 1, input) == alls[k].cells[0] - Through(alls, k, input)
  {
  }

  /** The allpasses one after another. */
  method AllAllpasses(fs: seq<Filter>, input: real) returns (w: real)
    requires AllValid(fs) && Apart(fs)
    modifies fs, set f | f in fs :: f.buf
    ensures AllValid(fs) && Lines(fs) == AllsNext(old(Lines(fs)), input)
    ensures w == Through(old(Lines(fs)), |fs|, input)
  {
    hide Apart, AllValid, Lines, AllNext, Through;
    ghost var was := Lines(fs);
    ThroughNone(was, input);
    w := input;
    for k := 0 to |fs|
      invariant AllValid(fs) && w == Through(was, k, input)
      invariant forall i :: 0 <= i < |fs| ==>
        Lines(fs)[i] == if i < k then AllNext(was[i], Through(was, i, input)) else was[i]
    {
      ThroughNext(was, k, input);
      w := OneAllpass(fs, k, w);
    }
  }

  lemma NothingHeld(c: seq<Filter>, a: seq<Filter>, side: nat)
    requires |c| == COMBS && |a| == ALLS && side < 2 && Silent(c, 0, side) && Silent(a, COMBS, side)
    ensures AllValid(c) && AllValid(a)
    ensures SideUnder(Side(Lines(c), Lines(a)), 0.0) && Tuned(Side(Lines(c), Lines(a)), side)
  {
    hide Length;
  }

  lemma EachValid(fs: seq<Filter>)
    requires AllValid(fs)
    ensures forall i :: 0 <= i < |fs| ==> fs[i].Valid()
  {
  }

  lemma ApartTogether(c: seq<Filter>, a: seq<Filter>)
    requires Apart(c) && Apart(a)
    requires forall f, g :: f in c && g in a ==> f != g && f.buf != g.buf
    ensures Apart(c + a)
  {
  }

  class Bank {
    const combs: seq<Filter>
    const alls: seq<Filter>
    ghost const repr: set<object>

    ghost predicate Valid()
      reads repr
    {
      && |combs| == COMBS && |alls| == ALLS && Apart(combs + alls)
      && (forall i :: 0 <= i < COMBS ==> combs[i] in repr && combs[i].buf in repr && combs[i].Valid())
      && (forall i :: 0 <= i < ALLS ==> alls[i] in repr && alls[i].buf in repr && alls[i].Valid())
    }

    ghost function Now(): (s: Side)
      requires Valid()
      reads repr
      ensures Formed(s)
    {
      Side(Lines(combs), Lines(alls))
    }

    constructor (side: nat)
      requires side < 2
      ensures Valid() && fresh(repr) && SideUnder(Now(), 0.0)
      ensures Tuned(Now(), side)
    {
      hide Apart, Silent, Lines, SideUnder, Tuned, AllValid;
      var c, a;
      ghost var inC, inA;
      c, inC := Filters(0, COMBS, side);
      a, inA := Filters(COMBS, 12, side);
      combs, alls, repr := c, a, inC + inA;
      new;
      ApartTogether(c, a);
      NothingHeld(c, a, side);
      assert AllValid(c) && AllValid(a);
      EachValid(c);
      EachValid(a);
    }

    method Tick(input: real, style: Style) returns (w: real)
      requires Valid()
      modifies repr
      ensures Valid() && Now() == SideNext(old(Now()), input, style) && w == SideOut(old(Now()))
    {
      hide CombsNext, AllsNext, CombSum, Through, Apart;
      Parts();
      w := RunCombs(input, style);
      w := RunAlls(w);
    }

    method RunCombs(input: real, style: Style) returns (w: real)
      requires Valid() && Apart(combs)
      modifies combs, set f | f in combs :: f.buf
      ensures Valid() && Lines(combs) == CombsNext(old(Lines(combs)), input, style) && Lines(alls) == old(Lines(alls))
      ensures w == CombSum(old(Lines(combs)), COMBS)
    {
      hide CombsNext, CombSum;
      w := AllCombs(combs, input, style);
      Untouched();
    }

    method RunAlls(input: real) returns (w: real)
      requires Valid() && Apart(alls)
      modifies alls, set f | f in alls :: f.buf
      ensures Valid() && Lines(alls) == AllsNext(old(Lines(alls)), input) && Lines(combs) == old(Lines(combs))
      ensures w == Through(old(Lines(alls)), ALLS, input)
    {
      hide AllsNext, Through;
      w := AllAllpasses(alls, input);
      Untouched();
    }

    lemma Untouched()
      requires Valid()
      ensures forall i, j :: 0 <= i < |combs| && 0 <= j < |alls| ==> combs[i] != alls[j] && combs[i].buf != alls[j].buf
    {
      forall i, j | 0 <= i < |combs| && 0 <= j < |alls|
        ensures combs[i] != alls[j] && combs[i].buf != alls[j].buf
      {
        assert (combs + alls)[i] == combs[i] && (combs + alls)[COMBS + j] == alls[j];
      }
    }

    lemma Parts()
      requires Valid()
      ensures Apart(combs) && Apart(alls)
    {
      assert forall i :: 0 <= i < |combs| ==> (combs + alls)[i] == combs[i];
      assert forall i :: 0 <= i < |alls| ==> (combs + alls)[COMBS + i] == alls[i];
    }
  }

  // ---- the whole room ----

  method Banks() returns (l: Bank, r: Bank)
    ensures l.Valid() && SideUnder(l.Now(), 0.0) && Tuned(l.Now(), 0) && fresh(l.repr)
    ensures r.Valid() && SideUnder(r.Now(), 0.0) && Tuned(r.Now(), 1) && fresh(r.repr)
    ensures l.repr !! r.repr
  {
    hide Bank.Valid, Bank.Now, Tuned, SideUnder;
    l := new Bank(0);
    r := new Bank(1);
  }

  lemma NothingYet(s: State)
    requires |s.tape.l| == |s.tape.r| == WOB && Within(s.tape.l, 0.0) && Within(s.tape.r, 0.0)
    requires EchoUnder(s.echo, 0.0) && SideUnder(s.left, 0.0) && SideUnder(s.right, 0.0) && 0.0 <= s.feedback <= 0.45
    ensures Under(s, 0.0)
  {
  }

  ghost predicate Disjoint(tape: Wobble, echo: Echo, left: Bank, right: Bank)
    reads {}
  {
    && {tape, tape.l, tape.r} !! {echo, echo.l, echo.r}
    && {tape, tape.l, tape.r} + {echo, echo.l, echo.r} !! left.repr + right.repr
    && left.repr !! right.repr
  }

  /** A room with nothing in it. */
  method NewRoom(style: Style) returns (room: Room)
    requires Sane(style)
    ensures room.Valid() && room.style == style && Empty(style, room.Now())
  {
    hide Wobble.Valid, Echo.Valid, Bank.Valid, Bank.Now, Wobble.Now, Echo.Now;
    hide Tuned, SideUnder, Within, Under, EchoUnder;
    hide Room.Now, Room.Separate, Built;
    var tape := new Wobble();
    var echo := new Echo(if style.echoLen > 0 then style.echoLen else 1, style.echoFeedback);
    var left, right := Banks();
    room := new Room(style, tape, echo, left, right);
    room.Start();
  }

  class Room {
    const style: Style
    const tape: Wobble
    const echo: Echo
    const left: Bank
    const right: Bank
    var quiet: nat  // samples since anything went in

    ghost function TapeRepr(): set<object>
      reads {}
    {
      {tape, tape.l, tape.r}
    }

    ghost function EchoRepr(): set<object>
      reads {}
    {
      {echo, echo.l, echo.r}
    }

    /** Nothing is shared, and every index is within its ring. */
    ghost predicate Valid()
      reads this, TapeRepr(), EchoRepr(), left.repr, right.repr
    {
      Parts() && Separate()
    }

    ghost predicate Parts()
      reads this, TapeRepr(), EchoRepr(), left.repr, right.repr
    {
      tape.Valid() && echo.Valid() && left.Valid() && right.Valid()
    }

    ghost predicate Separate()
      reads {}
    {
      this !in TapeRepr() + EchoRepr() + left.repr + right.repr && Disjoint(tape, echo, left, right)
    }

    ghost function Now(): (s: State)
      requires Parts()
      reads this, TapeRepr(), EchoRepr(), left.repr, right.repr
      ensures Shaped(s)
    {
      State(tape.Now(), echo.Now(), left.Now(), right.Now(), echo.feedback, quiet)
    }

    constructor (style: Style, tape: Wobble, echo: Echo, left: Bank, right: Bank)
      requires Sane(style) && tape.Valid() && echo.Valid() && left.Valid() && right.Valid()
      requires Disjoint(tape, echo, left, right)
      ensures this.style == style && this.tape == tape && this.echo == echo && this.left == left && this.right == right
      ensures Valid() && quiet == 0
    {
      hide Wobble.Valid, Echo.Valid, Bank.Valid;
      this.style, this.tape, this.echo, this.left, this.right := style, tape, echo, left, right;
      quiet := 0;
    }

    lemma Start()
      requires Parts() && Within(tape.Now().l, 0.0) && Within(tape.Now().r, 0.0) && EchoUnder(echo.Now(), 0.0)
      requires SideUnder(left.Now(), 0.0) && SideUnder(right.Now(), 0.0) && 0.0 <= echo.feedback <= 0.45
      requires Tuned(left.Now(), 0) && Tuned(right.Now(), 1)
      ensures Under(Now(), 0.0) && Tuned(Now().left, 0) && Tuned(Now().right, 1)
      ensures (style.echoLen > 0 ==> echo.l.Length == style.echoLen) ==> Built(style, Now())
      ensures Now().feedback == echo.feedback && Now().quiet == quiet
    {
      NothingYet(Now());
    }

    /** One sample through the room. */
    method Tick(i: Input) returns (out: Stereo)
      requires Valid() && i.Sane()
      modifies `quiet, TapeRepr(), EchoRepr(), left.repr, right.repr
      ensures Valid() && echo.feedback == old(echo.feedback)
      ensures Now() == RoomNext(style, old(Now()), i) && out == RoomOut(style, old(Now()), i)
    {
      hide Passed, Sounded, Mag, Wobble.Valid, Echo.Valid, Bank.Valid, Disjoint;
      QuietApart(style, Now(), 0, i);
      QuietApart(style, Now(), quiet + 1, i);
      if Mag(i.x.l) + Mag(i.x.r) > 0.000001 {
        quiet := 0;
      } else if quiet < RATE * 6 {
        quiet := quiet + 1;
      } else {
        return i.x;
      }
      out := Pass(i);
    }

    method Pass(i: Input) returns (out: Stereo)
      requires Valid() && i.Sane()
      modifies TapeRepr(), EchoRepr(), left.repr, right.repr
      ensures Valid() && echo.feedback == old(echo.feedback)
      ensures Now() == Passed(style, old(Now()), i) && out == Sounded(style, old(Now()), i)
    {
      hide Played, Recorded, Echoing, Echoed, SideNext, SideOut, Mag, Back, Behind, Disjoint;
      hide Wobble.Valid, Echo.Valid, Bank.Valid, Wobble.Now, Echo.Now, Bank.Now;
      out := i.x;
      if i.wobble > 0.0 {
        out := Wobbled(out, i.wobble, i.sine);
      }
      if style.echoLen > 0 {
        out := Repeated(out);
      }
      var wl, wr := Reverberated((out.l + out.r) * 0.015);
      out := Stereo(out.l + Back(wl, style.wet), out.r + Back(wr, style.wet));
    }

    /** A tick of techno's: the echo hangs as tasks wait on IO. */
    method Hang(ioWait: nat)
      requires Valid() && ioWait <= 15
      modifies EchoRepr()
      ensures Valid() && Now() == old(Now()).(feedback := Hung(old(Now()).feedback, ioWait))
    {
      hide Hung;
      echo.Hang(ioWait);
    }

    /** A whole run, the state at its end and so every bound a run keeps. */
    method Play(ms: seq<Moment>) returns (outs: seq<Stereo>)
      requires Valid() && forall k :: 0 <= k < |ms| ==> ms[k].Sane()
      modifies `quiet, TapeRepr(), EchoRepr(), left.repr, right.repr
      ensures Valid() && Now() == RoomRun(style, old(Now()), ms)
      ensures outs == Outs(style, old(Now()), ms)
    {
      hide Parts, Separate, Now, RoomNext, RoomOut;
      outs := [];
      ghost var was := Now();
      for k := 0 to |ms|
        invariant Valid() && Now() == RoomRun(style, was, ms[..k])
        invariant outs == Outs(style, was, ms[..k])
      {
        assert ms[..k + 1][..k] == ms[..k] && ms[k].Sane();
        match ms[k] {
          case Sample(i) =>
            var out := Tick(i);
            outs := outs + [out];
          case Hang(ioWait) =>
            Hang(ioWait);
        }
      }
      assert ms[..|ms|] == ms;
    }

    method Wobbled(x: Stereo, wobble: real, sine: real) returns (out: Stereo)
      requires Valid() && 0.0 < wobble <= 1.0 && Mag(sine) <= 1.0
      modifies TapeRepr()
      ensures Valid() && Now() == old(Now()).(tape := Recorded(old(Now()).tape, x))
      ensures out == Played(Now().tape, Behind(wobble, sine))
    {
      hide Played, Recorded, Mag, Behind;
      out := tape.Tick(x, wobble, sine);
    }

    method Repeated(x: Stereo) returns (out: Stereo)
      requires Valid()
      modifies EchoRepr()
      ensures Valid() && Now() == old(Now()).(echo := Echoing(old(Now()).echo, x, echo.feedback))
      ensures out == Echoed(old(Now()).echo, x, style.echoMix)
    {
      hide Echoing, Echoed;
      out := echo.Tick(x, style.echoMix);
    }

    method Reverberated(input: real) returns (wl: real, wr: real)
      requires Valid()
      modifies left.repr, right.repr
      ensures Valid()
      ensures Now() ==
        old(Now()).(left := SideNext(old(Now()).left, input, style),
                    right := SideNext(old(Now()).right, input, style))
      ensures wl == SideOut(old(Now()).left) && wr == SideOut(old(Now()).right)
    {
      hide SideNext, SideOut;
      wl := left.Tick(input, style);
      wr := right.Tick(input, style);
    }
  }
}
