/** Everything that sounds: segments of counted samples in thirty-two slots, in the techno style. */
module Events {
  import opened Arithmetic

  const RATE := 48000
  const SIXTEENTH := 5625
  const BAR := 90000
  const TICK := 4800
  const SHORT := 5280
  const MAX_EVENTS := 32
  const MAX_SEGMENTS := 96

  const EV_RUMBLE := 8
  const EV_HOLD := 20
  const EV_CREW := 40

  datatype Segment = Segment(sounds: bool, seconds: real)

  datatype Event = Event(active: bool, kind: int, seg: seq<Segment>, at: nat, pos: nat, len: nat)

  const IDLE := Event(false, 0, [], 0, 0, 0)

  /** A duration in whole samples, one at least. */
  function Samples(seconds: real): (n: nat)
    ensures 1 <= n
  {
    var n := (seconds * RATE as real).Floor;
    if n < 1 then 1 else n
  }

  function Sixteenths(n: nat): real {
    (n as real * SIXTEENTH as real + 0.5) / RATE as real
  }

  /** Counts come back exactly: of sixteenths, of sixteenths less 0.11 s, of a gap to the grid. */
  lemma ExactCounts(n: nat)
    requires 0 < n
    ensures Samples(Sixteenths(n)) == n * SIXTEENTH && Samples(Sixteenths(n) - 0.11) == n * SIXTEENTH - SHORT
    ensures Samples((n as real + 0.5) / RATE as real) == n
  {
    assert Sixteenths(n) * RATE as real == n as real * SIXTEENTH as real + 0.5;
    assert n as real * SIXTEENTH as real == (n * SIXTEENTH) as real;
    assert (Sixteenths(n) - 0.11) * RATE as real == (n * SIXTEENTH - SHORT) as real + 0.5;
    assert (n as real + 0.5) / RATE as real * RATE as real == n as real + 0.5;
  }

  // ---- how long an event has left ----

  function Total(seg: seq<Segment>): (n: nat)
    ensures |seg| <= n
  {
    if seg == [] then 0 else Samples(seg[0].seconds) + Total(seg[1..])
  }

  lemma {:induction false} TotalAppend(seg: seq<Segment>, s: Segment)
    ensures Total(seg + [s]) == Total(seg) + Samples(s.seconds)
  {
    if seg == [] {
      assert seg + [s] == [s];
    } else {
      TotalAppend(seg[1..], s);
      assert (seg + [s])[1..] == seg[1..] + [s];
    }
  }

  predicate Sound(e: Event) {
    && e.at <= |e.seg|
    && (e.pos > 0 ==> e.at < |e.seg| && e.len == Samples(e.seg[e.at].seconds) && e.pos < e.len)
  }

  /** The samples an event has yet to play. */
  function Left(e: Event): (n: nat)
    requires Sound(e)
    ensures n == 0 <==> e.at == |e.seg|
  {
    if e.at == |e.seg| then 0 else Total(e.seg[e.at..]) - e.pos
  }

  /** One sample of an event. */
  function Sampled(e: Event): Event {
    if e.at >= |e.seg| then e.(active := false)
    else
      var len := if e.pos == 0 then Samples(e.seg[e.at].seconds) else e.len;
      if e.pos + 1 >= len then e.(len := len, at := e.at + 1, pos := 0) else e.(len := len, pos := e.pos + 1)
  }

  lemma SampledLeft(e: Event)
    requires Sound(e) && e.active
    ensures Sound(Sampled(e)) && Sampled(e).kind == e.kind
    ensures if Left(e) > 0 then Sampled(e).active && Left(Sampled(e)) == Left(e) - 1 else !Sampled(e).active
  {
    if e.at < |e.seg| {
      assert e.seg[e.at..][1..] == e.seg[e.at + 1..];
    }
  }

  /** `b` is what `a` has become `n` samples later. */
  predicate Later(a: Event, b: Event, n: nat)
    requires Sound(a)
  {
    Sound(b) && b.active == (a.active && n <= Left(a)) && (b.active ==> b.kind == a.kind && Left(b) == Left(a) - n)
  }

  lemma LaterNext(a: Event, b: Event, n: nat)
    requires Sound(a) && Later(a, b, n)
    ensures Later(a, if b.active then Sampled(b) else b, n + 1)
  {
    if b.active {
      SampledLeft(b);
    }
  }

  // ---- the grid ----

  function GridNext(clock: nat, n: nat): nat
    requires 0 < n
  {
    (clock + (SIXTEENTH * n - 1)) / (SIXTEENTH * n) * n
  }

  /** The samples to the next bar line: none on one. */
  function ToBar(clock: nat): (gap: nat)
    ensures gap < BAR && (clock + gap) % BAR == 0
  {
    NextLine(clock);
    GridNext(clock, 16) * SIXTEENTH - clock
  }

  lemma NextLine(clock: nat)
    ensures var line := GridNext(clock, 16) * SIXTEENTH;
      clock <= line < clock + BAR && line % BAR == 0
  {
    var q := (clock + (BAR - 1)) / BAR;
    DivModUnique(q, 0, BAR);
    assert GridNext(clock, 16) == q * 16;
  }

  function GapTo(gap: nat): seq<Segment> {
    if gap > 0 then [Segment(false, (gap as real + 0.5) / RATE as real)] else []
  }

  lemma GapLasts(gap: nat)
    ensures Total(GapTo(gap)) == gap
  {
    if gap > 0 {
      ExactCounts(gap);
      TotalAppend([], GapTo(gap)[0]);
      assert [] + [GapTo(gap)[0]] == GapTo(gap);
    }
  }

  function SegAdd(seg: seq<Segment>, s: Segment): (r: seq<Segment>)
    ensures |seg| < MAX_SEGMENTS ==> |r| == |seg| + 1 && Total(r) == Total(seg) + Samples(s.seconds)
  {
    if |seg| < MAX_SEGMENTS then TotalAppend(seg, s); seg + [s] else seg
  }
}
