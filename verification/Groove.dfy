/**
 Techno's held sounds: the groove's layers, the rumble and the crew's beds, each
 a bar or two long, armed again from a tick of 4800 samples.
*/
module Groove {
  import opened Arithmetic
  import opened Events
  import Rhythm

  // ---- what is played: bars that end short of the bar line ----

  /** One step of a score: whether it sounds, and the sixteenth it begins on. */
  datatype Step = Step(sounds: bool, begins: nat)

  /** A layer's bar: a kick on each beat, a rolling bass, hats on every sixteenth, or a clank on two and four. */
  function LayerScore(layer: nat): (score: seq<Step>)
    ensures |score| == if layer == 1 || layer == 2 then 16 else 4
  {
    if layer == 0 then [Step(true, 0), Step(true, 4), Step(true, 8), Step(true, 12)]
    else if layer == 1 then seq(16, i requires 0 <= i => Step(i % 4 == 1 || i % 4 == 2, i))
    else if layer == 2 then seq(16, i requires 0 <= i => Step(true, i))
    else [Step(false, 0), Step(true, 4), Step(false, 8), Step(true, 12)]
  }

  const RUMBLE: seq<Step> := [Step(false, 0), Step(true, 1), Step(false, 4), Step(true, 5),
                              Step(false, 8), Step(true, 9), Step(false, 12), Step(true, 13)]

  /** After `lead` the first `k` steps of the score, each beginning on the very sample of its sixteenth. */
  ghost predicate Laid(seg: seq<Segment>, lead: seq<Segment>, score: seq<Step>, k: nat) {
    && k <= |score| && |seg| == |lead| + k && lead <= seg
    && forall i :: 0 <= i < k ==>
      seg[|lead| + i].sounds == score[i].sounds && Total(seg[..|lead| + i]) == Total(lead) + score[i].begins * SIXTEENTH
  }

  lemma LaidNext(seg: seq<Segment>, s: Segment, lead: seq<Segment>, score: seq<Step>, k: nat)
    requires Laid(seg, lead, score, k) && k < |score| && |seg| < MAX_SEGMENTS && s.sounds == score[k].sounds
    requires Total(seg) == Total(lead) + score[k].begins * SIXTEENTH
    ensures Laid(SegAdd(seg, s), lead, score, k + 1)
  {
    hide Total;
    Appends(seg, s);
    var t := seg + [s];
    forall i | 0 <= i < k + 1
      ensures t[|lead| + i].sounds == score[i].sounds
      ensures Total(t[..|lead| + i]) == Total(lead) + score[i].begins * SIXTEENTH
    {
      if i < k {
        assert t[..|lead| + i] == seg[..|lead| + i];
      } else {
        assert t[..|lead| + i] == seg;
      }
    }
  }

  lemma NoneLaid(lead: seq<Segment>, score: seq<Step>)
    ensures Laid(lead, lead, score, 0)
  {
  }

  lemma LaidLength(seg: seq<Segment>, lead: seq<Segment>, score: seq<Step>, k: nat)
    requires Laid(seg, lead, score, k)
    ensures |seg| == |lead| + k
  {
  }

  /** A bar of the groove's `layer`, ending short of the bar line. */
  method LayerBar(layer: nat, lead: seq<Segment>) returns (seg: seq<Segment>)
    requires |lead| <= 1
    ensures Total(seg) == Total(lead) + 90000 - 5280
    ensures |seg| == |lead| + if layer == 1 || layer == 2 then 16 else 4
    ensures forall i :: 0 <= i < |seg| - |lead| ==>
      if layer == 1 || layer == 2 then
        && Total(seg[..|lead| + i]) == Total(lead) + 5625 * i
        && (seg[|lead| + i].sounds <==> layer == 2 || i % 4 == 1 || i % 4 == 2)
      else
        && Total(seg[..|lead| + i]) == Total(lead) + 22500 * i
        && (seg[|lead| + i].sounds <==> layer == 0 || i % 2 == 1)
    ensures Laid(seg, lead, LayerScore(layer), |LayerScore(layer)|)
  {
    hide Samples, Sixteenths, Total, SegAdd, Laid;
    ExactCounts(1);
    ExactCounts(4);
    seg := lead;
    var beat, sixteenth := Sixteenths(4), Sixteenths(1);
    ghost var score := LayerScore(layer);
    NoneLaid(lead, score);
    for b := 0 to 4
      invariant |seg| <= 1 + 4 * b && Laid(seg, lead, score, |score| / 4 * b)
      invariant Total(seg) == Total(lead) + b * (4 * SIXTEENTH) - (if b == 4 then SHORT else 0)
    {
      var end := if b == 3 then 0.11 else 0.0;
      if layer == 0 {
        LaidNext(seg, Segment(true, beat - end), lead, score, b);
        seg := SegAdd(seg, Segment(true, beat - end));
      } else if layer == 1 {
        seg := BassBeat(seg, b, end, lead);
      } else if layer == 2 {
        seg := HatsBeat(seg, b, end, lead);
      } else {
        LaidNext(seg, Segment(b % 2 == 1, beat - end), lead, score, b);
        seg := SegAdd(seg, Segment(b % 2 == 1, beat - end));
      }
    }
    LaidLength(seg, lead, score, |score|);
    LayerWritten(seg, lead, layer);
  }

  lemma LaidAt(seg: seq<Segment>, lead: seq<Segment>, score: seq<Step>, i: nat)
    requires Laid(seg, lead, score, |score|) && i < |score|
    ensures |seg| == |lead| + |score| && seg[|lead| + i].sounds == score[i].sounds
    ensures Total(seg[..|lead| + i]) == Total(lead) + 5625 * score[i].begins
  {
  }

  /** A kick on every beat, bass on its second and third sixteenths, hats on all of them, clanks on two and four. */
  lemma LayerWritten(seg: seq<Segment>, lead: seq<Segment>, layer: nat)
    requires Laid(seg, lead, LayerScore(layer), |LayerScore(layer)|)
    ensures |seg| == |lead| + if layer == 1 || layer == 2 then 16 else 4
    ensures forall i :: 0 <= i < |seg| - |lead| ==>
      if layer == 1 || layer == 2 then
        && Total(seg[..|lead| + i]) == Total(lead) + 5625 * i
        && (seg[|lead| + i].sounds <==> layer == 2 || i % 4 == 1 || i % 4 == 2)
      else
        && Total(seg[..|lead| + i]) == Total(lead) + 22500 * i
        && (seg[|lead| + i].sounds <==> layer == 0 || i % 2 == 1)
  {
    hide Total, Laid;
    LaidLength(seg, lead, LayerScore(layer), |LayerScore(layer)|);
    forall i | 0 <= i < |seg| - |lead|
      ensures if layer == 1 || layer == 2 then
          && Total(seg[..|lead| + i]) == Total(lead) + 5625 * i
          && (seg[|lead| + i].sounds <==> layer == 2 || i % 4 == 1 || i % 4 == 2)
        else
          && Total(seg[..|lead| + i]) == Total(lead) + 22500 * i
          && (seg[|lead| + i].sounds <==> layer == 0 || i % 2 == 1)
    {
      LaidAt(seg, lead, LayerScore(layer), i);
    }
  }

  /** The rumble swells from the second sixteenth of each beat. */
  lemma RumbleWritten(seg: seq<Segment>, lead: seq<Segment>)
    requires Laid(seg, lead, RUMBLE, |RUMBLE|)
    ensures |seg| == |lead| + 8
    ensures forall i :: 0 <= i < 8 ==>
      && (seg[|lead| + i].sounds <==> i % 2 == 1)
      && Total(seg[..|lead| + i]) == Total(lead) + 22500 * (i / 2) + (if i % 2 == 1 then 5625 else 0)
  {
    hide Total, Laid;
    LaidLength(seg, lead, RUMBLE, |RUMBLE|);
    forall i | 0 <= i < 8
      ensures seg[|lead| + i].sounds <==> i % 2 == 1
      ensures Total(seg[..|lead| + i]) == Total(lead) + 22500 * (i / 2) + (if i % 2 == 1 then 5625 else 0)
    {
      LaidAt(seg, lead, RUMBLE, i);
    }
  }

  /** The second and third sixteenths of a beat. */
  method BassBeat(so: seq<Segment>, b: nat, end: real, ghost lead: seq<Segment>) returns (seg: seq<Segment>)
    requires b < 4 && end == (if b == 3 then 0.11 else 0.0) && |so| <= 1 + 4 * b
    requires Laid(so, lead, LayerScore(1), 4 * b) && Total(so) == Total(lead) + b * (4 * SIXTEENTH)
    ensures |seg| == |so| + 4 && Laid(seg, lead, LayerScore(1), 4 * (b + 1))
    ensures Total(seg) == Total(lead) + (b + 1) * (4 * SIXTEENTH) - (if b == 3 then SHORT else 0)
  {
    hide Samples, Sixteenths, Total, SegAdd, Laid;
    ExactCounts(1);
    var sixteenth := Sixteenths(1);
    ghost var score := LayerScore(1);
    LaidNext(so, Segment(false, sixteenth), lead, score, 4 * b);
    seg := SegAdd(so, Segment(false, sixteenth));
    for i := 0 to 2
      invariant |seg| == |so| + 1 + i && Laid(seg, lead, score, 4 * b + 1 + i)
      invariant Total(seg) == Total(lead) + b * (4 * SIXTEENTH) + (1 + i) * SIXTEENTH
    {
      LaidNext(seg, Segment(true, sixteenth), lead, score, 4 * b + 1 + i);
      seg := SegAdd(seg, Segment(true, sixteenth));
    }
    LaidNext(seg, Segment(false, sixteenth - end), lead, score, 4 * b + 3);
    seg := SegAdd(seg, Segment(false, sixteenth - end));
  }

  method HatsBeat(so: seq<Segment>, b: nat, end: real, ghost lead: seq<Segment>) returns (seg: seq<Segment>)
    requires b < 4 && end == (if b == 3 then 0.11 else 0.0) && |so| <= 1 + 4 * b
    requires Laid(so, lead, LayerScore(2), 4 * b) && Total(so) == Total(lead) + b * (4 * SIXTEENTH)
    ensures |seg| == |so| + 4 && Laid(seg, lead, LayerScore(2), 4 * (b + 1))
    ensures Total(seg) == Total(lead) + (b + 1) * (4 * SIXTEENTH) - (if b == 3 then SHORT else 0)
  {
    hide Samples, Sixteenths, Total, SegAdd, Laid;
    ExactCounts(1);
    var sixteenth := Sixteenths(1);
    ghost var score := LayerScore(2);
    seg := so;
    for i := 0 to 4
      invariant |seg| == |so| + i && Laid(seg, lead, score, 4 * b + i)
      invariant Total(seg) ==
        Total(lead) + b * (4 * SIXTEENTH) + i * SIXTEENTH - (if i == 4 && b == 3 then SHORT else 0)
    {
      var hat := Segment(true, sixteenth - (if i == 3 then end else 0.0));
      LaidNext(seg, hat, lead, score, 4 * b + i);
      seg := SegAdd(seg, hat);
    }
  }

  method RumbleBar(lead: seq<Segment>) returns (seg: seq<Segment>)
    requires |lead| <= 1
    ensures Total(seg) == Total(lead) + 90000 - 5280 && |seg| == |lead| + 8
    ensures forall i :: 0 <= i < 8 ==>
      && (seg[|lead| + i].sounds <==> i % 2 == 1)
      && Total(seg[..|lead| + i]) == Total(lead) + 22500 * (i / 2) + (if i % 2 == 1 then 5625 else 0)
    ensures Laid(seg, lead, RUMBLE, |RUMBLE|)
  {
    hide Samples, Sixteenths, Total, SegAdd, Laid;
    ExactCounts(1);
    ExactCounts(3);
    seg := lead;
    NoneLaid(lead, RUMBLE);
    for b := 0 to 4
      invariant |seg| <= 1 + 2 * b && Laid(seg, lead, RUMBLE, 2 * b)
      invariant Total(seg) == Total(lead) + b * (4 * SIXTEENTH) - (if b == 4 then SHORT else 0)
    {
      LaidNext(seg, Segment(false, Sixteenths(1)), lead, RUMBLE, 2 * b);
      seg := SegAdd(seg, Segment(false, Sixteenths(1)));
      var noise := Segment(true, Sixteenths(3) - (if b == 3 then 0.11 else 0.0));
      LaidNext(seg, noise, lead, RUMBLE, 2 * b + 1);
      seg := SegAdd(seg, noise);
    }
    RumbleWritten(seg, lead);
  }

  datatype Doing = Idle | Waiting | Working | Talking

  datatype Member = Member(doing: Doing, priority: int, hash: nat)

  function Rank(m: Member): nat {
    if 1 <= m.priority <= 5 then 5 - m.priority else 0
  }

  function HitCount(m: Member): (h: nat)
    ensures 3 <= h <= 8
  {
    3 + m.hash / 16 % 4 + (if Rank(m) >= 3 then 2 else 0)
  }

  function Turn(m: Member): nat {
    m.hash / 4096 % 16
  }

  /** How many bars a member's bed lasts. */
  function BedBars(m: Member): (n: nat)
    ensures 1 <= n <= 2
  {
    if m.doing == Waiting then 2 else 1
  }

  /** A member's bed: their rhythm's steps, or waiting, a bell on the first beat of two bars. */
  function BedScore(m: Member): (score: seq<Step>)
    ensures |score| == if m.doing == Waiting then 2 else 16
  {
    if m.doing == Waiting then [Step(true, 0), Step(false, 4)]
    else seq(16, i requires 0 <= i => Step(Rhythm.Hit(i, HitCount(m), Turn(m), 16), i))
  }

  method BedBar(m: Member, lead: seq<Segment>) returns (seg: seq<Segment>)
    requires |lead| <= 1
    ensures Total(seg) == Total(lead) + (if m.doing == Waiting then 180000 - 5280 else 90000 - 5280)
    ensures m.doing == Waiting ==>
      && |seg| == |lead| + 2 && seg[|lead|].sounds && !seg[|lead| + 1].sounds
      && Total(seg[..|lead|]) == Total(lead) && Total(seg[..|lead| + 1]) == Total(lead) + 22500
    ensures m.doing != Waiting ==>
      && |seg| == |lead| + 16
      && var hits := 3 + m.hash / 16 % 4 + (if m.priority == 1 || m.priority == 2 then 2 else 0);
        forall i :: 0 <= i < 16 ==>
          && Total(seg[..|lead| + i]) == Total(lead) + 5625 * i
          && (seg[|lead| + i].sounds <==> (i + m.hash / 4096 % 16) % 16 * hits % 16 < hits)
    ensures Total(seg) == Total(lead) + BedBars(m) * BAR - SHORT
    ensures Laid(seg, lead, BedScore(m), |BedScore(m)|)
  {
    hide Samples, Sixteenths, Total, SegAdd, Rhythm.Hit, HitCount, Turn, Laid;
    ExactCounts(1);
    ExactCounts(4);
    ExactCounts(28);
    seg := lead;
    ghost var score := BedScore(m);
    NoneLaid(lead, score);
    if m.doing == Waiting {
      LaidNext(seg, Segment(true, Sixteenths(4)), lead, score, 0);
      seg := SegAdd(seg, Segment(true, Sixteenths(4)));
      LaidNext(seg, Segment(false, Sixteenths(28) - 0.11), lead, score, 1);
      seg := SegAdd(seg, Segment(false, Sixteenths(28) - 0.11));
      BedWritten(seg, lead, m);
      return;
    }
    var hits, turn := HitCount(m), Turn(m);
    for i := 0 to 16
      invariant |seg| == |lead| + i && Laid(seg, lead, score, i)
      invariant Total(seg) == Total(lead) + i * SIXTEENTH - (if i == 16 then SHORT else 0)
    {
      var s := Segment(Rhythm.Hit(i, hits, turn, 16), Sixteenths(1) - (if i == 15 then 0.11 else 0.0));
      LaidNext(seg, s, lead, score, i);
      seg := SegAdd(seg, s);
    }
    BedWritten(seg, lead, m);
  }

  /** A bell and silence, or the rhythm that the priority and the hash of the name make. */
  lemma BedWritten(seg: seq<Segment>, lead: seq<Segment>, m: Member)
    requires Laid(seg, lead, BedScore(m), |BedScore(m)|)
    ensures m.doing == Waiting ==>
      && |seg| == |lead| + 2 && seg[|lead|].sounds && !seg[|lead| + 1].sounds
      && Total(seg[..|lead|]) == Total(lead) && Total(seg[..|lead| + 1]) == Total(lead) + 22500
    ensures m.doing != Waiting ==>
      && |seg| == |lead| + 16
      && var hits := 3 + m.hash / 16 % 4 + (if m.priority == 1 || m.priority == 2 then 2 else 0);
        forall i :: 0 <= i < 16 ==>
          && Total(seg[..|lead| + i]) == Total(lead) + 5625 * i
          && (seg[|lead| + i].sounds <==> (i + m.hash / 4096 % 16) % 16 * hits % 16 < hits)
  {
    hide Total, Laid;
    LaidLength(seg, lead, BedScore(m), |BedScore(m)|);
    if m.doing == Waiting {
      LaidAt(seg, lead, BedScore(m), 0);
      LaidAt(seg, lead, BedScore(m), 1);
    } else {
      var hits := 3 + m.hash / 16 % 4 + (if m.priority == 1 || m.priority == 2 then 2 else 0);
      forall i | 0 <= i < 16
        ensures Total(seg[..|lead| + i]) == Total(lead) + 5625 * i
        ensures seg[|lead| + i].sounds <==> (i + m.hash / 4096 % 16) % 16 * hits % 16 < hits
      {
        LaidAt(seg, lead, BedScore(m), i);
      }
    }
  }

  lemma Appends(seg: seq<Segment>, s: Segment)
    requires |seg| < MAX_SEGMENTS
    ensures SegAdd(seg, s) == seg + [s]
  {
  }

  // ---- bars in a row ----

  datatype Bar = Bar(start: nat, bars: nat) {
    /** The bar line after it. */
    function End(): nat {
      start + bars * BAR
    }

    predicate OnGrid() {
      start % BAR == 0 && 1 <= bars <= 2
    }
  }

  /** Every bar is on the grid and begins where the one before it ends: none skipped, none doubled. */
  predicate Gapless(h: seq<Bar>) {
    && (forall i :: 0 <= i < |h| ==> h[i].OnGrid())
    && (forall i :: 0 < i < |h| ==> h[i].start == h[i - 1].End())
  }

  /** Still sounding, or about to, at this time. */
  predicate Sounding(h: seq<Bar>, clock: nat) {
    h != [] && clock + SHORT <= h[|h| - 1].End()
  }

  /** The slack: a bar that sounded at one tick and not at the next is followed on its own bar line. */
  lemma NextBarLine(b: Bar, before: nat, clock: nat)
    requires b.OnGrid() && before + SHORT <= b.End() < clock + SHORT && clock <= before + TICK
    ensures clock + ToBar(clock) == b.End()
  {
    var k := b.start / BAR + b.bars;
    assert b.End() == k * BAR;
    DivIs(clock + BAR - 1, k, BAR);
  }

  /** Arming a bar at `clock`, in the ghost record of the bars of one kind. */
  function Armed(h: seq<Bar>, clock: nat, bars: nat): (r: seq<Bar>)
    requires 1 <= bars <= 2 && Gapless(h)
    ensures Gapless(r) && Sounding(r, clock)
    ensures h != [] && clock + ToBar(clock) == h[|h| - 1].End() ==> h <= r
  {
    var b := Bar(clock + ToBar(clock), bars);
    if h != [] && b.start == h[|h| - 1].End() then h + [b] else [b]
  }

  lemma ArmedLast(h: seq<Bar>, clock: nat, bars: nat)
    requires 1 <= bars <= 2 && Gapless(h)
    ensures var r := Armed(h, clock, bars); r[|r| - 1] == Bar(clock + ToBar(clock), bars)
  {
  }

  lemma NewLeft(kind: int, seg: seq<Segment>)
    ensures Left(Event(true, kind, seg, 0, 0, 0)) == Total(seg)
  {
    assert seg[0..] == seg;
  }

  /** What one tick may do to the bars of a kind: nothing, or arm one once the last has ended; served, it sounds. */
  ghost predicate Ticked(was: seq<Bar>, now: seq<Bar>, clock: nat, served: bool, bars: nat) {
    && Gapless(was)
    && (now == was || (1 <= bars <= 2 && !Sounding(was, clock) && now == Armed(was, clock, bars)))
    && (served ==> Sounding(now, clock))
  }

  // ---- what is held, and for how long ----

  /** What a tick is told: cores pegged for three seconds, tasks waiting as long, and the crew. */
  datatype Input = Input(pegged: nat, waiting: bool, crew: seq<Member>)

  predicate Wanted(kind: int, inp: Input) {
    if kind == EV_RUMBLE then inp.waiting
    else if EV_HOLD <= kind < EV_HOLD + 4 then kind - EV_HOLD < inp.pegged
    else EV_CREW <= kind < EV_CREW + |inp.crew| && inp.crew[kind - EV_CREW].doing != Idle
  }

  function BarsOf(kind: int, inp: Input): (n: nat)
    ensures 1 <= n <= 2
  {
    if EV_CREW <= kind < EV_CREW + |inp.crew| then BedBars(inp.crew[kind - EV_CREW]) else 1
  }

  /** What a kind of held sound plays. */
  function ScoreOf(kind: int, inp: Input): seq<Step> {
    if kind == EV_RUMBLE then RUMBLE
    else if EV_CREW <= kind < EV_CREW + |inp.crew| then BedScore(inp.crew[kind - EV_CREW])
    else LayerScore(if EV_HOLD <= kind < EV_HOLD + 4 then kind - EV_HOLD else 0)
  }

  /** A new event that plays its kind's score from the next bar line on. */
  ghost predicate Scored(e: Event, kind: int, clock: nat, inp: Input) {
    && e == Event(true, kind, e.seg, 0, 0, 0)
    && Laid(e.seg, GapTo(ToBar(clock)), ScoreOf(kind, inp), |ScoreOf(kind, inp)|)
  }

  /** Silence to the next bar line, then the kind's bar or bars, from their first sample. */
  ghost predicate Begins(e: Event, kind: int, clock: nat, inp: Input) {
    && e == Event(true, kind, e.seg, 0, 0, 0)
    && (kind == 8 || 20 <= kind < 24 ==> Total(e.seg) == ToBar(clock) + 90000 - 5280)
    && (40 <= kind < 40 + |inp.crew| ==>
         Total(e.seg) == ToBar(clock) + (if inp.crew[kind - 40].doing == Waiting then 180000 else 90000) - 5280)
  }

  /** Each kind's own score. */
  lemma ScoresAre(kind: int, inp: Input)
    ensures kind == 8 ==> ScoreOf(kind, inp) == RUMBLE
    ensures 20 <= kind < 24 ==> ScoreOf(kind, inp) == LayerScore(kind - 20)
    ensures 40 <= kind < 40 + |inp.crew| ==> ScoreOf(kind, inp) == BedScore(inp.crew[kind - 40])
  {
  }

  class Synth {
    const events: array<Event>
    var clock: nat
    ghost const watched: int   // any one kind of held sound
    ghost var heard: seq<Bar>  // its bars since it was last interrupted
    ghost var slot: nat        // where it sounds
    ghost var missed: nat      // ticks at which it was wanted, silent and found no slot

    ghost predicate Valid()
      reads this, events
    {
      && events.Length == MAX_EVENTS && Gapless(heard)
      && (forall i :: 0 <= i < MAX_EVENTS ==> Sound(events[i]))
      && (forall i :: 0 <= i < MAX_EVENTS ==>
           (events[i].active && events[i].kind == watched <==> Sounding(heard, clock) && i == slot))
      && (Sounding(heard, clock) ==>
           slot < MAX_EVENTS && clock + Left(events[slot]) + SHORT == heard[|heard| - 1].End())
    }

    constructor (ghost watched: int)
      ensures Valid() && heard == [] && clock == 0 && this.watched == watched
      ensures forall i :: 0 <= i < MAX_EVENTS ==> !events[i].active
    {
      this.watched := watched;
      events := new Event[MAX_EVENTS](_ => IDLE);
      clock, heard, slot, missed := 0, [], 0, 0;
    }

    method EventPlaying(kind: int) returns (playing: bool)
      requires Valid()
      ensures playing <==> exists i :: 0 <= i < MAX_EVENTS && events[i].active && events[i].kind == kind
    {
      for i := 0 to MAX_EVENTS
        invariant forall k :: 0 <= k < i ==> !(events[k].active && events[k].kind == kind)
      {
        if events[i].active && events[i].kind == kind {
          return true;
        }
      }
      return false;
    }

    /** A free slot, none when its kind must be alone and is not, or when all are taken. */
    method EventNew(kind: int, alone: bool) returns (at: int)
      requires Valid()
      ensures -1 <= at < MAX_EVENTS
      ensures at == -1 <==>
        || (forall i :: 0 <= i < MAX_EVENTS ==> events[i].active)
        || (alone && exists i :: 0 <= i < MAX_EVENTS && events[i].active && events[i].kind == kind)
      ensures at >= 0 ==> !events[at].active && forall i :: 0 <= i < at ==> events[i].active
    {
      at := -1;
      for i := 0 to MAX_EVENTS
        invariant -1 <= at < i
        invariant at == -1 ==> forall k :: 0 <= k < i ==> events[k].active
        invariant at >= 0 ==> !events[at].active && forall k :: 0 <= k < at ==> events[k].active
        invariant alone ==> forall k :: 0 <= k < i ==> !(events[k].active && events[k].kind == kind)
      {
        if events[i].active && events[i].kind == kind && alone {
          return -1;
        }
        if !events[i].active && at == -1 {
          at := i;
        }
      }
    }

    /** A new event in a free slot: one of the watched kind is a bar. */
    method Place(at: nat, kind: int, seg: seq<Segment>, ghost bars: nat)
      requires Valid() && at < MAX_EVENTS && !events[at].active
      requires kind == watched ==>
        1 <= bars <= 2 && !Sounding(heard, clock) && Total(seg) == ToBar(clock) + bars * BAR - SHORT
      modifies events, `heard, `slot
      ensures Valid()
      ensures events[..] == old(events[..])[at := Event(true, kind, seg, 0, 0, 0)]
      ensures heard == if kind == watched then Armed(old(heard), clock, bars) else old(heard)
    {
      hide Total, ToBar, Left, Gapless;
      NewLeft(kind, seg);
      assert Sounding(heard, clock) ==> events[slot].active;
      events[at] := Event(true, kind, seg, 0, 0, 0);
      if kind == watched {
        heard := Armed(heard, clock, bars);
        slot := at;
        ArmedLast(old(heard), clock, bars);
      }
      assert forall i :: 0 <= i < MAX_EVENTS && i != at ==> events[i] == old(events[i]);
    }

    /** A bar of `kind`, `bars` long, coming in on the next bar line, if a slot is free. */
    method Arm(kind: int, inp: Input) returns (ghost armed: bool)
      requires Valid() && Wanted(kind, inp)
      requires forall i :: 0 <= i < MAX_EVENTS ==> !(events[i].active && events[i].kind == kind)
      modifies events, `heard, `slot
      ensures Valid()
      ensures !armed ==> forall i :: 0 <= i < MAX_EVENTS ==> events[i].active
      ensures armed <==> exists i :: 0 <= i < MAX_EVENTS && events[i].active && events[i].kind == kind
      ensures forall i :: 0 <= i < MAX_EVENTS && events[i].active && events[i].kind == kind ==>
        && Scored(events[i], kind, clock, inp)
        && Begins(events[i], kind, clock, inp)
      ensures forall i :: 0 <= i < MAX_EVENTS && old(events[i]).active ==> events[i] == old(events[i])
      ensures forall i :: 0 <= i < MAX_EVENTS && events[i].active && events[i] != old(events[i]) ==>
        events[i].kind == kind
      ensures heard == if armed && kind == watched then Armed(old(heard), clock, BarsOf(kind, inp)) else old(heard)
    {
      hide Total, Left, Gapless, Armed, Sound, Laid, LayerScore, BedScore;
      armed := false;
      var at := EventNew(kind, true);
      if at < 0 {
        return;
      }
      var lead := GapTo(ToBar(clock));
      GapLasts(ToBar(clock));
      var seg := lead;
      if kind == EV_RUMBLE {
        seg := RumbleBar(lead);
      } else if EV_HOLD <= kind < EV_HOLD + 4 {
        seg := LayerBar(kind - EV_HOLD, lead);
      } else {
        seg := BedBar(inp.crew[kind - EV_CREW], lead);
      }
      ghost var was := events[..];
      Place(at, kind, seg, BarsOf(kind, inp));
      armed := true;
      assert events[at].active && events[at].kind == kind;
      assert forall i :: 0 <= i < MAX_EVENTS ==> events[i] == events[..][i] && was[i] == old(events[i]);
    }

    /** What a tick leaves of the watched kind: sounding, or not wanted, or no slot was free. */
    ghost predicate Served(kind: int, inp: Input)
      reads events
    {
      events.Length == MAX_EVENTS ==>
      || (exists i :: 0 <= i < MAX_EVENTS && events[i].active && events[i].kind == kind)
      || !Wanted(kind, inp)
      || (forall i :: 0 <= i < MAX_EVENTS ==> events[i].active)
    }

    /** One held sound: armed again once the last bar of its kind has ended. */
    method Keep(kind: int, inp: Input)
      requires Valid() && Wanted(kind, inp)
      modifies events, `heard, `slot
      ensures Valid() && Served(kind, inp)
      ensures forall i :: 0 <= i < MAX_EVENTS && old(events[i]).active ==> events[i] == old(events[i])
      ensures forall i :: 0 <= i < MAX_EVENTS && events[i].active && events[i] != old(events[i]) ==>
        events[i].kind == kind
      ensures heard == old(heard)
        || (kind == watched && !Sounding(old(heard), clock) && heard == Armed(old(heard), clock, BarsOf(kind, inp)))
    {
      hide Wanted, Armed;
      var playing := EventPlaying(kind);
      if !playing {
        var armed := Arm(kind, inp);
      }
    }

    ghost predicate Moves(was: seq<Bar>, inp: Input)
      reads `heard, `clock
    {
      Ticked(was, heard, clock, false, BarsOf(watched, inp)) && (heard != was ==> Wanted(watched, inp))
    }

    /** Once a tick: groove, rumble and beds; what is wanted sounds, or every slot is taken. */
    method HoldTick(inp: Input)
      requires Valid() && |inp.crew| <= 8
      modifies events, `heard, `slot, `missed
      ensures Valid() && events.Length == 32
      ensures Ticked(old(heard), heard, clock, false, BarsOf(watched, inp))
      ensures heard != old(heard) ==>
        || (watched == 8 && inp.waiting)
        || (20 <= watched < 24 && watched - 20 < inp.pegged)
        || (40 <= watched < 40 + |inp.crew| && inp.crew[watched - 40].doing in {Waiting, Working, Talking})
      ensures missed == old(missed) + if Wanted(watched, inp) && !Sounding(heard, clock) then 1 else 0
      ensures missed > old(missed) ==> forall i :: 0 <= i < MAX_EVENTS ==> events[i].active
    {
      HoldAll(inp);
      if Wanted(watched, inp) && !Sounding(heard, clock) {
        missed := missed + 1;
      }
    }

    method HoldAll(inp: Input)
      requires Valid() && |inp.crew| <= 8
      modifies events, `heard, `slot
      ensures Valid() && Moves(old(heard), inp)
      ensures Served(watched, inp)
    {
      ghost var was := heard;
      assert Gapless(was);
      hide Armed, Valid, Gapless;
      var layer := 0;
      while layer < inp.pegged && layer < 4
        invariant Valid() && Moves(was, inp) && layer <= 4
        invariant forall k :: EV_HOLD <= k < EV_HOLD + layer ==> Served(k, inp)
      {
        KeepOne(EV_HOLD + layer, inp, was);
        layer := layer + 1;
      }
      if inp.waiting {
        KeepOne(EV_RUMBLE, inp, was);
      }
      for k := 0 to |inp.crew|
        invariant Valid() && Moves(was, inp)
        invariant forall j :: EV_HOLD <= j < EV_HOLD + layer ==> Served(j, inp)
        invariant inp.waiting ==> Served(EV_RUMBLE, inp)
        invariant forall j :: 0 <= j < k && inp.crew[j].doing != Idle ==> Served(EV_CREW + j, inp)
      {
        if inp.crew[k].doing != Idle {
          KeepOne(EV_CREW + k, inp, was);
        }
      }
      NothingElse(watched, inp, layer);
    }

    method KeepOne(kind: int, inp: Input, ghost was: seq<Bar>)
      requires Valid() && Wanted(kind, inp) && Gapless(was) && Moves(was, inp)
      modifies events, `heard, `slot
      ensures Valid() && Moves(was, inp) && Served(kind, inp)
      ensures forall k :: old(Served(k, inp)) ==> Served(k, inp)
    {
      Keep(kind, inp);
    }

    lemma NothingElse(kind: int, inp: Input, layer: nat)
      requires layer <= 4 && (layer >= inp.pegged || layer == 4)
      requires forall k :: EV_HOLD <= k < EV_HOLD + layer ==> Served(k, inp)
      requires inp.waiting ==> Served(EV_RUMBLE, inp)
      requires forall j :: 0 <= j < |inp.crew| && inp.crew[j].doing != Idle ==> Served(EV_CREW + j, inp)
      ensures Served(kind, inp)
    {
      if Wanted(kind, inp) && EV_CREW <= kind < EV_CREW + |inp.crew| {
        assert Served(EV_CREW + (kind - EV_CREW), inp);
      }
    }

    /** Any other sound, waiting for the next sixteenth or not at all. */
    method Other(kind: int, seg: seq<Segment>)
      requires Valid() && kind != watched
      modifies events, `heard, `slot
      ensures Valid() && heard == old(heard)
    {
      var at := EventNew(kind, false);
      if at >= 0 {
        Place(at, kind, seg, 1);
      }
    }

    lemma IsHeard()
      requires Valid()
      ensures events.Length == 32
      ensures forall i :: 0 <= i < 32 && events[i].active && events[i].kind == watched ==>
        && heard != [] && Sound(events[i])
        && clock + Left(events[i]) + 5280 == heard[|heard| - 1].start + heard[|heard| - 1].bars * 90000
      ensures heard != [] && clock + 5280 <= heard[|heard| - 1].start + heard[|heard| - 1].bars * 90000 ==>
        exists i :: 0 <= i < 32 && events[i].active && events[i].kind == watched
    {
      hide Gapless, Left;
      if Sounding(heard, clock) {
        assert events[slot].active && events[slot].kind == watched;
      }
    }

    /** One sample of every event. */
    method SampleAll(ghost first: seq<Event>, ghost n: nat)
      requires events.Length == MAX_EVENTS == |first|
      requires forall i :: 0 <= i < MAX_EVENTS ==> Sound(first[i]) && Later(first[i], events[i], n)
      modifies events
      ensures forall i :: 0 <= i < MAX_EVENTS ==> Later(first[i], events[i], n + 1)
    {
      hide Later, Sound;
      for i := 0 to MAX_EVENTS
        invariant forall k :: 0 <= k < i ==> Later(first[k], events[k], n + 1)
        invariant forall k :: i <= k < MAX_EVENTS ==> Later(first[k], events[k], n)
      {
        LaterNext(first[i], events[i], n);
        if events[i].active {
          events[i] := Sampled(events[i]);
        }
      }
    }

    method Render(frames: nat)
      requires Valid()
      modifies events, `clock
      ensures Valid() && clock == old(clock) + frames
    {
      ghost var first := events[..];
      for f := 0 to frames
        invariant clock == old(clock) + f
        invariant forall i :: 0 <= i < MAX_EVENTS ==> Later(first[i], events[i], f)
      {
        SampleAll(first, f);
        clock := clock + 1;
      }
      if Sounding(heard, old(clock)) {
        assert first[slot].active;
      }
    }
  }

  // ---- a whole run ----

  const BLOCKS_PER_TICK := 5
  const BLOCK := 960

  /** A sound that is not held: its kind and its segments. */
  type Moment = (int, seq<Segment>)

  /** One block of the voice: the moments that begin on it, then its samples. */
  method PlayBlock(s: Synth, moments: seq<Moment>)
    requires s.Valid() && forall k :: 0 <= k < |moments| ==> moments[k].0 != s.watched
    modifies s.events, s`heard, s`slot, s`clock
    ensures s.Valid() && s.heard == old(s.heard) && s.clock == old(s.clock) + BLOCK
  {
    for k := 0 to |moments|
      invariant s.Valid() && s.heard == old(s.heard) && s.clock == old(s.clock)
    {
      s.Other(moments[k].0, moments[k].1);
    }
    s.Render(BLOCK);
  }

  lemma TickedServed(was: seq<Bar>, now: seq<Bar>, clock: nat, served: bool, bars: nat)
    requires Ticked(was, now, clock, false, bars) && (served ==> Sounding(now, clock))
    ensures Ticked(was, now, clock, served, bars)
  {
  }

  /** One tick: what is held is armed, then five blocks, each with the moments of its own. */
  method PlayTick(s: Synth, inp: Input, blocks: seq<seq<Moment>>)
    requires s.Valid() && |inp.crew| <= 8 && |blocks| == BLOCKS_PER_TICK
    requires forall b, k :: 0 <= b < |blocks| && 0 <= k < |blocks[b]| ==> blocks[b][k].0 != s.watched
    modifies s.events, s`heard, s`slot, s`clock, s`missed
    ensures s.events.Length == 32
    ensures s.Valid() && s.clock == old(s.clock) + TICK && old(s.missed) <= s.missed
    ensures Ticked(old(s.heard), s.heard, old(s.clock), Wanted(s.watched, inp) && s.missed == old(s.missed),
                     BarsOf(s.watched, inp))
    ensures s.heard != old(s.heard) ==>
      || (s.watched == 8 && inp.waiting)
      || (20 <= s.watched < 24 && s.watched - 20 < inp.pegged)
      || (40 <= s.watched < 40 + |inp.crew| && inp.crew[s.watched - 40].doing in {Waiting, Working, Talking})
    // the record is of what sounds: one event of the kind, with what is left of its last bar, or none
    ensures forall i :: 0 <= i < 32 && s.events[i].active && s.events[i].kind == s.watched ==>
      && s.heard != [] && Sound(s.events[i])
      && s.clock + Left(s.events[i]) + 5280 == s.heard[|s.heard| - 1].start + s.heard[|s.heard| - 1].bars * 90000
    ensures s.heard != [] && s.clock + 5280 <= s.heard[|s.heard| - 1].start + s.heard[|s.heard| - 1].bars * 90000 ==>
      exists i :: 0 <= i < 32 && s.events[i].active && s.events[i].kind == s.watched
  {
    hide Ticked, Wanted, Sounding;
    s.HoldTick(inp);
    TickedServed(old(s.heard), s.heard, s.clock, Wanted(s.watched, inp) && s.missed == old(s.missed),
                 BarsOf(s.watched, inp));
    for b := 0 to BLOCKS_PER_TICK
      invariant s.Valid() && s.clock == old(s.clock) + b * BLOCK
      invariant old(s.missed) <= s.missed
      invariant Ticked(old(s.heard), s.heard, old(s.clock), Wanted(s.watched, inp) && s.missed == old(s.missed),
                     BarsOf(s.watched, inp))
      invariant s.heard != old(s.heard) ==>
        || (s.watched == 8 && inp.waiting)
        || (20 <= s.watched < 24 && s.watched - 20 < inp.pegged)
        || (40 <= s.watched < 40 + |inp.crew| && inp.crew[s.watched - 40].doing in {Waiting, Working, Talking})
    {
      PlayBlock(s, blocks[b]);
    }
    s.IsHeard();
  }

  /**
   The voice over any run of ticks, with whatever moments in between: while the
   watched kind is wanted and never finds every slot taken, its bars begin on the
   first bar line and follow one another without a gap.
  */
  method Voice(s: Synth, inputs: seq<Input>, blocks: seq<seq<seq<Moment>>>)
    requires s.Valid() && s.heard == [] && 0 < |inputs| == |blocks|
    requires forall i :: 0 <= i < |inputs| ==> |inputs[i].crew| <= 8 && |blocks[i]| == BLOCKS_PER_TICK
    requires forall i, b, k :: 0 <= i < |blocks| && 0 <= b < |blocks[i]| && 0 <= k < |blocks[i][b]| ==>
      blocks[i][b][k].0 != s.watched
    modifies s.events, s`heard, s`slot, s`clock, s`missed
    ensures s.Valid() && s.clock == TickAt(old(s.clock), |inputs|) && old(s.missed) <= s.missed
    ensures s.missed == old(s.missed) && (forall i :: 0 <= i < |inputs| ==> Wanted(s.watched, inputs[i])) ==>
      && Gapless(s.heard) && Sounding(s.heard, TickAt(old(s.clock), |inputs| - 1))
      && s.heard[0].start == old(s.clock) + ToBar(old(s.clock))
    // the rumble, a layer of the groove, a member at work or talking: a bar on every line
    ensures s.missed == old(s.missed)
      && (|| (s.watched == 8 && forall i :: 0 <= i < |inputs| ==> inputs[i].waiting)
          || (20 <= s.watched < 24 && forall i :: 0 <= i < |inputs| ==> s.watched - 20 < inputs[i].pegged)
          || (40 <= s.watched && forall i :: 0 <= i < |inputs| ==>
                s.watched - 40 < |inputs[i].crew| && inputs[i].crew[s.watched - 40].doing in {Working, Talking}))
      ==> && s.heard != [] && s.heard[0].start % 90000 == 0
          && old(s.clock) <= s.heard[0].start < old(s.clock) + 90000
          && (forall k :: 0 <= k < |s.heard| ==> s.heard[k].start == s.heard[0].start + k * 90000)
          && old(s.clock) + (|inputs| - 1) * 4800 + 5280 <= s.heard[|s.heard| - 1].start + 90000
    // a member waiting: a bell on every other line
    ensures s.missed == old(s.missed)
      && 40 <= s.watched && (forall i :: 0 <= i < |inputs| ==>
           s.watched - 40 < |inputs[i].crew| && inputs[i].crew[s.watched - 40].doing == Waiting)
      ==> && s.heard != [] && s.heard[0].start % 90000 == 0
          && old(s.clock) <= s.heard[0].start < old(s.clock) + 90000
          && (forall k :: 0 <= k < |s.heard| ==> s.heard[k].start == s.heard[0].start + k * 180000)
          && old(s.clock) + (|inputs| - 1) * 4800 + 5280 <= s.heard[|s.heard| - 1].start + 180000
  {
    hide Ticked, Wanted, Gapless, Sounding, ToBar, TickAt, BarsOf, ServedRun;
    ghost var first, h, bars, wanted := s.clock, [s.heard], [], true;
    TickNext(first, 0);
    NoneServed(s.heard, first);
    for i := 0 to |inputs|
      invariant s.Valid() && s.clock == TickAt(first, i) && old(s.missed) <= s.missed
      invariant |h| == i + 1 && |bars| == i && h[i] == s.heard
      invariant forall k :: 0 <= k < i ==> bars[k] == BarsOf(s.watched, inputs[k])
      invariant wanted == forall k :: 0 <= k < i ==> Wanted(s.watched, inputs[k])
      invariant s.missed == old(s.missed) && wanted ==> ServedRun(h, first, bars)
    {
      PlayTick(s, inputs[i], blocks[i]);
      TickNext(first, i);
      wanted := wanted && Wanted(s.watched, inputs[i]);
      if s.missed == old(s.missed) && wanted {
        ServedNext(h, first, bars, s.heard, BarsOf(s.watched, inputs[i]));
      }
      h, bars := h + [s.heard], bars + [BarsOf(s.watched, inputs[i])];
    }
    if s.missed == old(s.missed) && wanted {
      GaplessGroove(h, first, bars);
    }
    LatestTick(first, |inputs| - 1);
    if s.missed == old(s.missed) && wanted {
      EachApart(h, first, bars, s.watched, inputs);
    }
    Held(s.watched, inputs);
  }

  lemma EachApart(h: seq<seq<Bar>>, first: nat, bars: seq<nat>, kind: int, inputs: seq<Input>)
    requires ServedRun(h, first, bars) && |bars| == |inputs| > 0 && |h| == |bars| + 1
    requires forall i :: 0 <= i < |inputs| ==> bars[i] == BarsOf(kind, inputs[i])
    ensures (forall i :: 0 <= i < |inputs| ==> BarsOf(kind, inputs[i]) == 1) ==>
      Apart(h[|bars|], first, TickAt(first, |bars| - 1), 90000)
    ensures (forall i :: 0 <= i < |inputs| ==> BarsOf(kind, inputs[i]) == 2) ==>
      Apart(h[|bars|], first, TickAt(first, |bars| - 1), 180000)
  {
    hide ServedRun, BarsOf, TickAt, Apart;
    if forall i :: 0 <= i < |inputs| ==> BarsOf(kind, inputs[i]) == 1 {
      ServedApart(h, first, bars, 1);
    }
    if forall i :: 0 <= i < |inputs| ==> BarsOf(kind, inputs[i]) == 2 {
      ServedApart(h, first, bars, 2);
    }
  }

  lemma LatestTick(first: nat, i: nat)
    ensures TickAt(first, i) == first + i * 4800
  {
  }

  /** What the inputs say of a kind at every tick: that it is wanted, and how long its bars are. */
  lemma Held(kind: int, inputs: seq<Input>)
    ensures
      (|| (kind == 8 && forall i :: 0 <= i < |inputs| ==> inputs[i].waiting)
       || (20 <= kind < 24 && forall i :: 0 <= i < |inputs| ==> kind - 20 < inputs[i].pegged)
       || (40 <= kind && forall i :: 0 <= i < |inputs| ==>
             kind - 40 < |inputs[i].crew| && inputs[i].crew[kind - 40].doing in {Working, Talking}))
      ==> forall i :: 0 <= i < |inputs| ==> Wanted(kind, inputs[i]) && BarsOf(kind, inputs[i]) == 1
    ensures
      40 <= kind && (forall i :: 0 <= i < |inputs| ==>
        kind - 40 < |inputs[i].crew| && inputs[i].crew[kind - 40].doing == Waiting)
      ==> forall i :: 0 <= i < |inputs| ==> Wanted(kind, inputs[i]) && BarsOf(kind, inputs[i]) == 2
  {
  }

  lemma TickNext(first: nat, i: nat)
    ensures TickAt(first, i + 1) == TickAt(first, i) + TICK && TickAt(first, 0) == first
  {
  }

  lemma NoneServed(h: seq<Bar>, first: nat)
    requires h == []
    ensures ServedRun([h], first, [])
  {
  }

  lemma ServedNext(h: seq<seq<Bar>>, first: nat, bars: seq<nat>, now: seq<Bar>, n: nat)
    requires ServedRun(h, first, bars) && 1 <= n <= 2
    requires Ticked(h[|bars|], now, TickAt(first, |bars|), true, n)
    ensures ServedRun(h + [now], first, bars + [n])
  {
    hide Ticked;
    var g, bs := h + [now], bars + [n];
    forall i | 0 <= i < |bs|
      ensures 1 <= bs[i] <= 2 && Ticked(g[i], g[i + 1], TickAt(first, i), true, bs[i])
    {
      if i < |bars| {
        assert bs[i] == bars[i] && g[i] == h[i] && g[i + 1] == h[i + 1];
      }
    }
  }

  /** The clock at tick `i` of a run that began at `first`. */
  function TickAt(first: nat, i: nat): nat {
    first + i * TICK
  }

  /** At every tick of the run the kind is wanted and a slot is free; `h[i]` is the record before tick `i`. */
  ghost predicate ServedRun(h: seq<seq<Bar>>, first: nat, bars: seq<nat>) {
    && |h| == |bars| + 1 && h[0] == []
    && forall i :: 0 <= i < |bars| ==> 1 <= bars[i] <= 2 && Ticked(h[i], h[i + 1], TickAt(first, i), true, bars[i])
  }

  /** Over any served run the bars follow one another on the grid from the first line, up to the latest tick. */
  lemma {:induction false} GaplessGroove(h: seq<seq<Bar>>, first: nat, bars: seq<nat>)
    requires ServedRun(h, first, bars) && |bars| > 0
    ensures var n := |bars|;
      && Gapless(h[n]) && Sounding(h[n], TickAt(first, n - 1))
      && h[n][0].start == first + ToBar(first) && h[n - 1] <= h[n]
    decreases |bars|
  {
    var n := |bars| - 1;
    hide Gapless, ToBar;
    assert Ticked(h[n], h[n + 1], TickAt(first, n), true, bars[n]);
    TickedStep(h[n], h[n + 1], TickAt(first, n), bars[n]);
    if n > 0 {
      assert ServedRun(h[..n + 1], first, bars[..n]);
      GaplessGroove(h[..n + 1], first, bars[..n]);
      FollowsOn(h[n], h[n + 1], TickAt(first, n - 1), TickAt(first, n), bars[n]);
    } else {
      assert h[1] == Armed([], first, bars[0]);
      ArmedLast([], first, bars[0]);
    }
  }

  lemma TickedStep(was: seq<Bar>, now: seq<Bar>, clock: nat, bars: nat)
    requires 1 <= bars <= 2 && Ticked(was, now, clock, true, bars)
    ensures Gapless(was) && Gapless(now) && Sounding(now, clock)
  {
  }

  lemma FollowsOn(was: seq<Bar>, now: seq<Bar>, before: nat, clock: nat, bars: nat)
    requires 1 <= bars <= 2 && Ticked(was, now, clock, true, bars)
    requires Sounding(was, before) && clock == before + TICK
    ensures was <= now
  {
    if !Sounding(was, clock) {
      NextBarLine(was[|was| - 1], before, clock);
    }
  }

  /** Bars of one length begin exactly as far apart, one on every line up to the end of the last. */
  lemma {:induction false} EveryBarLine(h: seq<Bar>, i: nat, n: nat)
    requires Gapless(h) && i < |h| && 1 <= n <= 2 && forall k :: 0 <= k < |h| ==> h[k].bars == n
    ensures h[i].start == h[0].start + i * (if n == 1 then 90000 else 180000)
  {
    if i > 0 {
      EveryBarLine(h, i - 1, n);
      assert h[i].start == h[i - 1].End();
    }
  }

  /** Served at every tick with bars of one length, the record holds bars of that length. */
  lemma {:induction false} OneLength(h: seq<seq<Bar>>, first: nat, bars: seq<nat>, n: nat)
    requires ServedRun(h, first, bars) && forall i :: 0 <= i < |bars| ==> bars[i] == n
    ensures forall k :: 0 <= k < |h[|bars|]| ==> h[|bars|][k].bars == n
    decreases |bars|
  {
    hide ToBar;
    if |bars| > 0 {
      var m := |bars| - 1;
      assert ServedRun(h[..m + 1], first, bars[..m]);
      OneLength(h[..m + 1], first, bars[..m], n);
      assert Ticked(h[m], h[m + 1], TickAt(first, m), true, bars[m]);
    }
  }

  /** From the first line at or after `first`, `d` samples apart, the last not over by a tick at `latest`. */
  ghost predicate Apart(h: seq<Bar>, first: nat, latest: nat, d: nat) {
    && h != [] && h[0].start % 90000 == 0 && first <= h[0].start < first + 90000
    && (forall k :: 0 <= k < |h| ==> h[k].start == h[0].start + k * d)
    && latest + 5280 <= h[|h| - 1].start + d
  }

  lemma ServedApart(h: seq<seq<Bar>>, first: nat, bars: seq<nat>, n: nat)
    requires ServedRun(h, first, bars) && |bars| > 0 && |h| == |bars| + 1 && 1 <= n <= 2
    requires forall i :: 0 <= i < |bars| ==> bars[i] == n
    ensures Apart(h[|bars|], first, TickAt(first, |bars| - 1), if n == 1 then 90000 else 180000)
  {
    hide ServedRun, TickAt;
    OneLength(h, first, bars, n);
    GaplessGroove(h, first, bars);
    var last := h[|bars|];
    forall k | 0 <= k < |last|
      ensures last[k].start == last[0].start + k * (if n == 1 then 90000 else 180000)
    {
      EveryBarLine(last, k, n);
    }
  }
}
