/** One direction of a call: samples in, packets over a network that loses them, samples out. */
module PhoneLine {
  import opened Arithmetic
  import U = Ulaw

  const FRAME := 160
  const STUTTER := 40

  /** What became of a packet. */
  datatype Fate = Lost | Late | Arrived | Stuttered(at: nat)

  type Packet = seq<int>

  function Silence(): (p: Packet)
    ensures |p| == FRAME
  {
    seq(FRAME, _ => 0)
  }

  /** C's conversion of a scaled sample: toward zero. */
  function Quarters(x: int, q: nat): int {
    if x < 0 then -(-x * q / 4) else x * q / 4
  }

  /** A packet scaled for the `r`-th loss in a row: by `1 - r / 4`, and nothing from the fourth on. */
  function Faded(p: Packet, r: nat): (f: Packet)
    ensures |f| == |p|
  {
    seq(|p|, i requires 0 <= i < |p| => Quarters(p[i], if r >= 4 then 0 else 4 - r))
  }

  /** The jitter buffer catching up: 5 ms before `at` played again from `at`. */
  function Repeated(p: Packet, at: nat): (f: Packet)
    requires STUTTER <= at && at + STUTTER <= |p|
    ensures |f| == |p|
  {
    p[..at] + p[at - STUTTER..at] + p[at + STUTTER..]
  }

  // ---- what plays, from the whole history of packets ----

  predicate Sound(packets: seq<Packet>, fates: seq<Fate>) {
    && |packets| == |fates|
    && (forall i :: 0 <= i < |packets| ==> |packets[i]| == FRAME)
    && (forall i :: 0 <= i < |fates| ==> fates[i].Stuttered? ==> STUTTER <= fates[i].at < 3 * STUTTER)
  }

  /** The last packet that was not lost. */
  function Good(packets: seq<Packet>, fates: seq<Fate>): (p: Packet)
    requires Sound(packets, fates)
    ensures |p| == FRAME
  {
    var n := |packets| - 1;
    if n < 0 then Silence() else if fates[n].Lost? then Good(packets[..n], fates[..n]) else packets[n]
  }

  /** How many packets in a row have just been lost. */
  function LostRun(fates: seq<Fate>): (r: nat)
    ensures r <= |fates| && forall i :: |fates| - r <= i < |fates| ==> fates[i].Lost?
    ensures r < |fates| ==> !fates[|fates| - r - 1].Lost?
  {
    var n := |fates| - 1;
    if n < 0 || !fates[n].Lost? then 0 else LostRun(fates[..n]) + 1
  }

  function Playing(packets: seq<Packet>, fates: seq<Fate>): (p: Packet)
    requires Sound(packets, fates)
    ensures |p| == FRAME
  {
    var n := |packets| - 1;
    if n < 0 then Silence()
    else match fates[n]
      case Lost => Faded(Good(packets, fates), LostRun(fates))
      case Late => Silence()
      case Arrived => packets[n]
      case Stuttered(at) => Repeated(packets[n], at)
  }

  /** What the line has heard and said: sample `n` out is from the packet before the one `n` falls in. */
  ghost predicate Trace(fed: seq<int>, outs: seq<int>, packets: seq<Packet>, fates: seq<Fate>) {
    && Sound(packets, fates) && |outs| == |fed| && |packets| == |fed| / FRAME
    && (forall k :: 0 <= k < |packets| ==> packets[k] == fed[FRAME * k..FRAME * k + FRAME])
    && (forall n :: 0 <= n < |outs| ==>
         outs[n] == Playing(packets[..n / FRAME], fates[..n / FRAME])[n % FRAME])
  }

  class Line {
    const sent: array<int>
    const play: array<int>
    const good: array<int>
    var fill: nat
    var lostRun: nat
    var burst: int
    ghost var packets: seq<Packet>
    ghost var fates: seq<Fate>
    ghost var fed: seq<int>   // samples as coded for the network
    ghost var outs: seq<int>

    ghost predicate Buffers()
      reads {}
    {
      && sent.Length == play.Length == good.Length == FRAME
      && sent != play && sent != good && play != good
    }

    /** The concealment state is a function of the packets so far. */
    ghost predicate Conceals()
      reads `lostRun, `packets, `fates, play, good
    {
      && Sound(packets, fates)
      && good[..] == Good(packets, fates) && lostRun == LostRun(fates) && play[..] == Playing(packets, fates)
    }

    ghost predicate Valid()
      reads this, sent, play, good
    {
      && Buffers() && Conceals() && Trace(fed, outs, packets, fates)
      && fill == |fed| % FRAME && sent[..fill] == fed[|fed| - fill..]
    }

    constructor ()
      ensures Valid() && fed == [] && fates == []
    {
      sent, play, good := new int[FRAME](_ => 0), new int[FRAME](_ => 0), new int[FRAME](_ => 0);
      fill, lostRun, burst := 0, 0, 0;
      packets, fates, fed, outs := [], [], [], [];
    }

    /** A random draw. */
    method Chance() returns (c: real)
      ensures 0.0 <= c < 1.0
    {
      c :| 0.0 <= c < 1.0;
    }

    /** Whether the network loses this packet: a burst goes on, one begins, or a single loss. */
    method Loses(bad: real) returns (lost: bool)
      modifies `burst
      ensures old(burst) > 0 ==> lost && burst == old(burst) - 1
      ensures old(burst) <= 0 ==> burst == old(burst) || (lost && 2 <= burst <= 7)
    {
      lost := false;
      if burst > 0 {
        burst := burst - 1;
        return true;
      }
      var c := Chance();
      if c < 0.0005 + 0.02 * bad {
        c := Chance();
        burst := 2 + (c * 6.0).Floor;
        return true;
      }
      c := Chance();
      lost := c < 0.003 + 0.12 * bad;
    }

    method Conceal()
      requires Buffers()
      modifies `lostRun, play
      ensures lostRun == old(lostRun) + 1 && play[..] == Faded(good[..], lostRun)
    {
      lostRun := lostRun + 1;
      var q := if lostRun >= 4 then 0 else 4 - lostRun;
      forall i | 0 <= i < FRAME {
        play[i] := Quarters(good[i], q);
      }
    }

    method Copy(to: array<int>)
      requires Buffers() && to.Length == FRAME && to != sent
      modifies to
      ensures to[..] == sent[..]
    {
      forall i | 0 <= i < FRAME {
        to[i] := sent[i];
      }
    }

    method CatchUp(at: nat)
      requires Buffers() && STUTTER <= at && at + STUTTER <= FRAME
      modifies play
      ensures play[..] == Repeated(old(play[..]), at)
    {
      forall i | 0 <= i < STUTTER {
        play[at + i] := play[at - STUTTER + i];
      }
    }

    /** A finished packet meets the network: lost and patched, or too late, or played. */
    method Deliver(bad: real) returns (ghost fate: Fate)
      requires Buffers() && Conceals()
      modifies `lostRun, `burst, `packets, `fates, play, good
      ensures Conceals()
      ensures packets == old(packets) + [sent[..]] && fates == old(fates) + [fate]
      ensures old(burst) > 0 ==> fate == Lost
    {
      hide Good, LostRun, Playing, Faded, Repeated;
      var lost := Loses(bad);
      var c := Chance();
      if lost {
        fate := Lost;
        Conceal();
      } else if c < 0.002 + 0.05 * bad {
        fate := Late;
        lostRun := 0;
        forall i | 0 <= i < FRAME {
          play[i] := 0;
        }
        Copy(good);
      } else {
        fate := Arrived;
        lostRun := 0;
        Copy(good);
        Copy(play);
        c := Chance();
        if c < 0.002 + 0.05 * bad {
          c := Chance();
          var at := STUTTER + (c * 80.0).Floor;
          fate := Stuttered(at);
          CatchUp(at);
        }
      }
      PlayingNext(packets, fates, sent[..], fate);
      packets, fates := packets + [sent[..]], fates + [fate];
    }

    /** The sample is coded into the packet being filled, and one of the packet that plays goes out. */
    method Exchange(pcm: int) returns (out: int)
      requires Valid()
      modifies `fill, `fed, `outs, sent
      ensures Buffers() && Conceals() && Pending(fed, outs, packets, fates)
      ensures fed == old(fed) + [U.Decoded(U.Encoded(pcm))] && outs == old(outs) + [out]
      ensures 1 <= fill <= FRAME && |fed| == FRAME * |packets| + fill && sent[..fill] == fed[|fed| - fill..]
      ensures fill < FRAME ==> Trace(fed, outs, packets, fates)
    {
      hide Good, LostRun, Playing, Sound, Trace, Pending, U.Decoded;
      out := play[fill];
      var u := U.Encode(pcm);
      sent[fill] := U.Decoded(u);
      ghost var x := U.Decoded(u);
      TraceNext(fed, outs, packets, fates, x, play[..]);
      fed, outs := fed + [x], outs + [out];
      fill := fill + 1;
      assert sent[..fill] == old(sent[..fill]) + [x] == fed[|fed| - fill..];
    }

    /** One sample in, one out. */
    method Step(pcm: int, bad: real) returns (out: int)
      requires Valid()
      modifies this, sent, play, good
      ensures Valid()
      ensures fed == old(fed) + [U.Decoded(U.Encoded(pcm))] && outs == old(outs) + [out]
      ensures old(fates) <= fates && Trace(fed, outs, packets, fates)
      // what is heard of packets that came in time, of all that was ever said
      ensures forall n :: 0 <= n < |outs| && (n < 160 || (n / 160 <= |fates| && fates[n / 160 - 1].Arrived?)) ==>
        outs[n] == if n < 160 then 0 else fed[n - 160]
    {
      hide Conceals, Trace, Pending, U.Decoded, U.Encoded;
      out := Exchange(pcm);
      if fill == FRAME {
        EndPacket(bad);
      }
      EachInTime(fed, outs, packets, fates);
    }

    /** A full packet is delivered and the next one begun. */
    method EndPacket(bad: real)
      requires Buffers() && Conceals() && Pending(fed, outs, packets, fates)
      requires fill == FRAME && |fed| == FRAME * |packets| + FRAME && sent[..fill] == fed[|fed| - fill..]
      modifies `fill, `lostRun, `burst, `packets, `fates, play, good
      ensures Valid() && old(fates) <= fates
    {
      hide Conceals, Trace, Pending;
      WholePacket(sent[..], fed, |packets|);
      ghost var ps, fs := packets, fates;
      var fate := Deliver(bad);
      Delivered(ps, fs);
      fill := 0;
    }

    lemma Delivered(ps: seq<Packet>, fs: seq<Fate>)
      requires Conceals() && Pending(fed, outs, ps, fs) && |fed| == FRAME * |ps| + FRAME
      requires packets == ps + [fed[FRAME * |ps|..]] && |fates| == |fs| + 1 && fates == fs + [fates[|fs|]]
      ensures Trace(fed, outs, packets, fates)
    {
      hide Good, LostRun, Playing;
      TraceDelivered(fed, outs, ps, fs, packets, fates);
    }
  }

  lemma WholePacket(sent: seq<int>, fed: seq<int>, k: nat)
    requires |sent| == FRAME && |fed| == FRAME * k + FRAME && sent[..FRAME] == fed[|fed| - FRAME..]
    ensures sent == fed[FRAME * k..]
  {
    assert sent[..FRAME] == sent;
  }

  /** A sample coded before its packet is delivered. */
  ghost predicate Pending(fed: seq<int>, outs: seq<int>, packets: seq<Packet>, fates: seq<Fate>) {
    && Sound(packets, fates) && |outs| == |fed| && FRAME * |packets| <= |fed| <= FRAME * |packets| + FRAME
    && (forall k :: 0 <= k < |packets| ==> packets[k] == fed[FRAME * k..FRAME * k + FRAME])
    && (forall n :: 0 <= n < |outs| ==>
         n / FRAME <= |packets| && outs[n] == Playing(packets[..n / FRAME], fates[..n / FRAME])[n % FRAME])
  }

  lemma PlayingNext(packets: seq<Packet>, fates: seq<Fate>, p: Packet, f: Fate)
    requires Sound(packets, fates) && |p| == FRAME && (f.Stuttered? ==> STUTTER <= f.at < 3 * STUTTER)
    ensures Sound(packets + [p], fates + [f])
    ensures Good(packets + [p], fates + [f]) == if f.Lost? then Good(packets, fates) else p
    ensures LostRun(fates + [f]) == if f.Lost? then LostRun(fates) + 1 else 0
    ensures Playing(packets + [p], fates + [f]) == match f
      case Lost => Faded(Good(packets, fates), LostRun(fates) + 1)
      case Late => Silence()
      case Arrived => p
      case Stuttered(at) => Repeated(p, at)
  {
    assert (packets + [p])[..|packets|] == packets && (fates + [f])[..|fates|] == fates;
  }

  lemma TraceNext(fed: seq<int>, outs: seq<int>, packets: seq<Packet>, fates: seq<Fate>, x: int, play: Packet)
    requires Trace(fed, outs, packets, fates) && play == Playing(packets, fates)
    ensures Pending(fed + [x], outs + [play[|fed| % FRAME]], packets, fates)
    ensures |fed| == FRAME * |packets| + |fed| % FRAME
    ensures |fed| % FRAME < FRAME - 1 ==> Trace(fed + [x], outs + [play[|fed| % FRAME]], packets, fates)
  {
    hide Playing;
    var outs' := outs + [play[|fed| % FRAME]];
    assert packets[..|packets|] == packets && fates[..|fates|] == fates;
    forall n | 0 <= n < |outs'|
      ensures n / FRAME <= |packets| && outs'[n] == Playing(packets[..n / FRAME], fates[..n / FRAME])[n % FRAME]
    {
    }
    forall k | 0 <= k < |packets|
      ensures packets[k] == (fed + [x])[FRAME * k..FRAME * k + FRAME]
    {
    }
  }

  lemma TraceDelivered(fed: seq<int>, outs: seq<int>, packets: seq<Packet>, fates: seq<Fate>,
                       packets': seq<Packet>, fates': seq<Fate>)
    requires Pending(fed, outs, packets, fates) && |fed| == FRAME * |packets| + FRAME
    requires |packets'| == |packets| + 1 && packets' == packets + [fed[FRAME * |packets|..]] && Sound(packets', fates')
    requires |fates'| == |fates| + 1 && fates' == fates + [fates'[|fates|]]
    ensures Trace(fed, outs, packets', fates')
  {
    hide Playing;
    forall n | 0 <= n < |outs|
      ensures outs[n] == Playing(packets'[..n / FRAME], fates'[..n / FRAME])[n % FRAME]
    {
      assert packets'[..n / FRAME] == packets[..n / FRAME] && fates'[..n / FRAME] == fates[..n / FRAME];
    }
  }

  // ---- what a caller hears ----

  /** Whether the packet that plays at sample `n` arrived in time; before the first one silence plays. */
  predicate InTime(fates: seq<Fate>, n: nat) {
    n < FRAME || (n / FRAME <= |fates| && fates[n / FRAME - 1].Arrived?)
  }

  /** Whatever became of other packets, a sample of one that arrived in time comes out one packet later. */
  lemma CleanCall(fed: seq<int>, outs: seq<int>, packets: seq<Packet>, fates: seq<Fate>, n: nat)
    requires Trace(fed, outs, packets, fates) && n < |outs| && InTime(fates, n)
    ensures outs[n] == if n < FRAME then 0 else fed[n - FRAME]
  {
    hide Playing;
    var k := n / FRAME;
    if k > 0 {
      PlaysArrived(packets[..k], fates[..k]);
      assert packets[k - 1] == fed[FRAME * (k - 1)..FRAME * (k - 1) + FRAME];
    } else {
      PlaysNothing();
    }
  }

  lemma EachInTime(fed: seq<int>, outs: seq<int>, packets: seq<Packet>, fates: seq<Fate>)
    requires Trace(fed, outs, packets, fates)
    ensures |outs| == |fed|
    ensures forall n :: 0 <= n < |outs| && (n < 160 || (n / 160 <= |fates| && fates[n / 160 - 1].Arrived?)) ==>
      outs[n] == if n < 160 then 0 else fed[n - 160]
  {
    hide Trace;
    TraceLengths(fed, outs, packets, fates);
    forall n | 0 <= n < |outs| && (n < 160 || (n / 160 <= |fates| && fates[n / 160 - 1].Arrived?))
      ensures outs[n] == if n < 160 then 0 else fed[n - 160]
    {
      CleanCall(fed, outs, packets, fates, n);
    }
  }

  lemma PlaysArrived(packets: seq<Packet>, fates: seq<Fate>)
    requires Sound(packets, fates) && packets != [] && fates[|fates| - 1].Arrived?
    ensures Playing(packets, fates) == packets[|packets| - 1]
  {
  }

  lemma PlaysNothing()
    ensures forall i :: 0 <= i < FRAME ==> Playing([], [])[i] == 0
  {
  }

  /** The same in samples: what comes out is within half a step of what was said. */
  lemma CleanCallHalfStep(said: seq<int>, fed: seq<int>, outs: seq<int>, packets: seq<Packet>, fates: seq<Fate>, n: nat)
    requires Trace(fed, outs, packets, fates) && FRAME <= n < |outs| && InTime(fates, n) && |said| == |fed|
    requires fed[n - FRAME] == U.Decoded(U.Encoded(said[n - FRAME]))
    ensures U.Abs(outs[n] - U.Clipped(said[n - FRAME])) <= U.Pow2(U.Segment(U.Biased(said[n - FRAME])) + 2)
  {
    hide Trace, U.Decoded, U.Encoded, U.Segment, U.Biased, U.Pow2, U.Clipped;
    TraceLengths(fed, outs, packets, fates);
    CleanCall(fed, outs, packets, fates, n);
    U.HalfStep(said[n - FRAME]);
  }

  lemma TraceLengths(fed: seq<int>, outs: seq<int>, packets: seq<Packet>, fates: seq<Fate>)
    requires Trace(fed, outs, packets, fates)
    ensures |fed| == |outs| && |fates| == |fed| / FRAME
  {
  }

  /** What plays at sample `n`, by the packet before the one it falls in. */
  lemma PlaysAt(fed: seq<int>, outs: seq<int>, packets: seq<Packet>, fates: seq<Fate>, n: nat)
    requires Trace(fed, outs, packets, fates) && FRAME <= n < |outs|
    ensures n / FRAME <= |packets| == |fates| && Sound(packets[..n / FRAME], fates[..n / FRAME])
    ensures packets[n / FRAME - 1] == fed[n / FRAME * FRAME - FRAME..n / FRAME * FRAME]
    ensures outs[n] == Playing(packets[..n / FRAME], fates[..n / FRAME])[n % FRAME]
  {
    hide Playing;
    assert FRAME * (n / FRAME - 1) + FRAME == n / FRAME * FRAME;
  }

  /** A packet too late for the jitter buffer: silence where it was. */
  lemma LateIsSilence(fed: seq<int>, outs: seq<int>, packets: seq<Packet>, fates: seq<Fate>, n: nat)
    requires Trace(fed, outs, packets, fates) && 160 <= n < |outs| && n / 160 <= |fates| && fates[n / 160 - 1].Late?
    ensures outs[n] == 0
  {
    PlaysAt(fed, outs, packets, fates, n);
  }

  /** The jitter buffer catching up: forty samples from `at` on are the forty before them again. */
  lemma StutterPlaysTwice(fed: seq<int>, outs: seq<int>, packets: seq<Packet>, fates: seq<Fate>, n: nat)
    requires Trace(fed, outs, packets, fates) && 160 <= n < |outs|
    requires n / 160 <= |fates| && fates[n / 160 - 1].Stuttered?
    ensures var at := fates[n / 160 - 1].at;
      40 <= at < 120 && outs[n] == if at <= n % 160 < at + 40 then fed[n - 200] else fed[n - 160]
  {
    hide Playing, Trace, Repeated;
    PlaysAt(fed, outs, packets, fates, n);
    var k := n / FRAME;
    PlaysRepeated(packets[..k], fates[..k]);
    RepeatedAt(packets[k - 1], fates[k - 1].at, n % FRAME);
    TraceLengths(fed, outs, packets, fates);
    LastPacket(fed, packets[k - 1], n);
  }

  lemma LastPacket(fed: seq<int>, p: Packet, n: nat)
    requires FRAME <= n < |fed| && p == fed[n / FRAME * FRAME - FRAME..n / FRAME * FRAME]
    ensures |p| == FRAME && p[n % FRAME] == fed[n - 160]
    ensures n % FRAME >= 40 ==> n >= 200 && p[n % FRAME - 40] == fed[n - 200]
  {
  }

  lemma PlaysRepeated(packets: seq<Packet>, fates: seq<Fate>)
    requires Sound(packets, fates) && packets != [] && fates[|fates| - 1].Stuttered?
    ensures 40 <= fates[|fates| - 1].at < 120
    ensures Playing(packets, fates) == Repeated(packets[|packets| - 1], fates[|fates| - 1].at)
  {
  }

  lemma RepeatedAt(p: Packet, at: nat, i: nat)
    requires |p| == FRAME && 40 <= at < 120 && i < FRAME
    ensures Repeated(p, at)[i] == if at <= i < at + 40 then p[i - 40] else p[i]
  {
  }

  /**
   The `r`-th packet lost in a row: the last one that was not lost plays again, each
   sample at its share of 1 - r/4 toward zero; before any packet, silence.
  */
  lemma LossFades(fed: seq<int>, outs: seq<int>, packets: seq<Packet>, fates: seq<Fate>, n: nat, r: nat)
    requires Trace(fed, outs, packets, fates) && 160 <= n < |outs| && 1 <= r <= n / 160 <= |fates|
    requires forall i :: n / 160 - r <= i < n / 160 ==> fates[i].Lost?
    requires r < n / 160 ==> !fates[n / 160 - r - 1].Lost?
    ensures r == n / 160 ==> outs[n] == 0
    ensures r < n / 160 ==>
      var g := fed[n - 160 * (r + 1)];
      && 4 * U.Abs(outs[n]) <= U.Abs(g) * (if r >= 4 then 0 else 4 - r) < 4 * U.Abs(outs[n]) + 4
      && (outs[n] != 0 ==> (outs[n] > 0 <==> g > 0))
  {
    hide Playing, Trace, U.Abs, Good, LostRun;
    var k := n / FRAME;
    PlaysAt(fed, outs, packets, fates, n);
    RunIs(fates[..k], r);
    GoodBeforeRun(packets[..k], fates[..k]);
    if r < k {
      Conceals(packets[..k], fates[..k], n % FRAME);
      SampleBack(fed, outs, packets, fates, n, r);
    } else {
      NoneFromSilence(packets[..k], fates[..k], n % FRAME);
    }
  }

  lemma SampleBack(fed: seq<int>, outs: seq<int>, packets: seq<Packet>, fates: seq<Fate>, n: nat, r: nat)
    requires Trace(fed, outs, packets, fates) && n < |outs| && r < n / FRAME <= |packets|
    ensures 0 <= n - FRAME * (r + 1) < |fed| && |packets[n / FRAME - r - 1]| == FRAME
    ensures packets[n / FRAME - r - 1][n % FRAME] == fed[n - FRAME * (r + 1)]
  {
    hide Playing;
    PacketAt(fed, outs, packets, fates, n / FRAME - r - 1);
    assert FRAME * (n / FRAME - r - 1) + n % FRAME == n - FRAME * (r + 1);
  }

  lemma NoneFromSilence(packets: seq<Packet>, fates: seq<Fate>, i: nat)
    requires Sound(packets, fates) && fates != [] && fates[|fates| - 1].Lost? && i < FRAME
    requires Good(packets, fates) == Silence()
    ensures Playing(packets, fates)[i] == 0
  {
    hide Good;
  }

  lemma PacketAt(fed: seq<int>, outs: seq<int>, packets: seq<Packet>, fates: seq<Fate>, k: nat)
    requires Trace(fed, outs, packets, fates) && k < |packets|
    ensures FRAME * k + FRAME <= |fed| && packets[k] == fed[FRAME * k..FRAME * k + FRAME]
  {
  }

  lemma {:induction false} RunIs(fates: seq<Fate>, r: nat)
    requires r <= |fates| && forall i :: |fates| - r <= i < |fates| ==> fates[i].Lost?
    requires r < |fates| ==> !fates[|fates| - r - 1].Lost?
    ensures LostRun(fates) == r
    decreases r
  {
    if r > 0 {
      RunIs(fates[..|fates| - 1], r - 1);
    }
  }

  /** Concealment is never louder than the packet it repeats, keeps its sign, and is silent from the fourth loss. */
  lemma Conceals(packets: seq<Packet>, fates: seq<Fate>, i: nat)
    requires Sound(packets, fates) && |fates| > 0 && fates[|fates| - 1].Lost? && i < FRAME
    ensures var r, g, p := LostRun(fates), Good(packets, fates)[i], Playing(packets, fates)[i];
      && 1 <= r && 4 * U.Abs(p) <= U.Abs(g) * (if r >= 4 then 0 else 4 - r) < 4 * U.Abs(p) + 4
      && (p != 0 ==> (p > 0 <==> g > 0)) && U.Abs(p) <= U.Abs(g)
  {
    hide Good, LostRun, Quarters;
    var r, g := LostRun(fates), Good(packets, fates)[i];
    RunOfLosses(fates);
    QuartersShrink(g, if r >= 4 then 0 else 4 - r);
  }

  lemma RunOfLosses(fates: seq<Fate>)
    requires |fates| > 0 && fates[|fates| - 1].Lost?
    ensures 1 <= LostRun(fates)
  {
  }

  lemma QuartersShrink(x: int, q: nat)
    requires q <= 3
    ensures var p := Quarters(x, q);
      4 * U.Abs(p) <= U.Abs(x) * q < 4 * U.Abs(p) + 4 && (p != 0 ==> (p > 0 <==> x > 0)) && U.Abs(p) <= U.Abs(x)
  {
  }

  /** Through a run of losses the repeated packet is the last one before the run. */
  lemma {:induction false} GoodBeforeRun(packets: seq<Packet>, fates: seq<Fate>)
    requires Sound(packets, fates)
    ensures Good(packets, fates) ==
      var n := |fates| - LostRun(fates);
      if n == 0 then Silence() else packets[n - 1]
  {
    var n := |fates| - 1;
    if n >= 0 && fates[n].Lost? {
      GoodBeforeRun(packets[..n], fates[..n]);
    }
  }
}
