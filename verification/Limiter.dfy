/** The end of the voice's chain: the duck, the ceiling that presses, and the limit that nothing passes. */
module Limiter {
  import opened Reals

  /** Gains and rates of the chain; each rate moves an envelope part of the way at every sample. */
  datatype Levels = Levels(ceiling: real, limit: real, ducked: real, attack: real, release: real,
                           limitRelease: real, duckDown: real, duckUp: real) {
    predicate Sane() {
      && 0.0 < ceiling <= limit && limit < 1.0 && 0.0 < ducked < 1.0
      && 0.0 < attack < 1.0 && 0.0 < release < 1.0 && 0.0 < limitRelease < 1.0
      && 0.0 < duckDown < 1.0 && 0.0 < duckUp < 1.0
    }
  }

  function Peak(l: real, r: real): real {
    MaxR(Mag(l), Mag(r))
  }

  lemma PeakNotNegative(l: real, r: real)
    ensures 0.0 <= Peak(l, r)
  {
  }

  function Amplified(x: real, gain: real): real {
    x * gain
  }

  /** The gain that brings an envelope down to the limit. */
  function Gain(limit: real, env: real): real
    requires env != 0.0
  {
    limit / env
  }

  lemma GainRange(limit: real, env: real)
    requires 0.0 < limit < env
    ensures 0.0 < Gain(limit, env) < 1.0
    ensures Gain(limit, env) * env == limit
  {
    var g := Gain(limit, env);
    assert g * env == limit;
    if g <= 0.0 {
      NonNegative(-g, env);
    }
    if g >= 1.0 {
      NonNegative(g - 1.0, env);
    }
  }

  lemma AmplifiedLimits(x: real, limit: real, env: real)
    requires 0.0 < limit < env && Mag(x) <= env
    ensures Mag(Amplified(x, Gain(limit, env))) <= limit
  {
    GainRange(limit, env);
    var g := Gain(limit, env);
    Product(g, x, env);
    assert Amplified(x, g) == g * x;
  }

  lemma AmplifiedByOne(x: real)
    ensures Amplified(x, 1.0) == x
  {
  }

  /** A value that moves part of the way toward another. */
  function Moved(x: real, y: real, rate: real): real {
    x + rate * (y - x)
  }

  lemma MovedBetween(x: real, y: real, rate: real)
    requires 0.0 < rate < 1.0
    ensures x <= y ==> x <= Moved(x, y, rate) && Moved(x, y, rate) <= y
    ensures y <= x ==> y <= Moved(x, y, rate) && Moved(x, y, rate) <= x
  {
    var d := Mag(y - x);
    NonNegative(rate, d);
    NonNegative(1.0 - rate, d);
    Splits(rate, d);
    if y < x {
      assert rate * (y - x) == -(rate * d);
    }
  }

  function After(x: real, y: real, rate: real, n: nat): real {
    if n == 0 then x else Moved(After(x, y, rate, n - 1), y, rate)
  }

  function Share(p: real, d: real): real {
    p * d
  }

  /** Each sample takes the same share of the way that is left, so the rest decays geometrically. */
  lemma {:induction false} WayLeft(x: real, y: real, rate: real, n: nat)
    ensures After(x, y, rate, n) - y == Share(Pow(1.0 - rate, n), x - y)
  {
    hide Moved, Share;
    if n == 0 {
      WholeWay(x - y);
    } else {
      WayLeft(x, y, rate, n - 1);
      hide Pow;
      PowStep(1.0 - rate, n);
      ShareLeft(After(x, y, rate, n - 1), y, rate, Pow(1.0 - rate, n - 1), x - y);
    }
  }

  lemma WholeWay(d: real)
    ensures Share(1.0, d) == d
  {
  }

  lemma PowStep(q: real, n: nat)
    requires 0 < n
    ensures Pow(q, n) == Share(q, Pow(q, n - 1))
  {
  }

  lemma ShareLeft(x: real, y: real, rate: real, p: real, d: real)
    requires x - y == Share(p, d)
    ensures Moved(x, y, rate) - y == Share(Share(1.0 - rate, p), d)
  {
    Regroup(1.0 - rate, p, d);
  }

  lemma Nearer(p: real, q: real, d: real)
    requires 0.0 <= q <= p
    ensures Mag(q * d) <= Mag(d) * p
  {
    Product(q, d, Mag(d));
    NonNegative(p - q, Mag(d));
  }

  /** Held long enough, the duck is as near to its level as one likes, and stays there. */
  lemma Settles(x: real, y: real, rate: real, eps: real) returns (samples: nat)
    requires 0.0 < rate < 1.0 && 0.0 < eps
    ensures forall n :: samples <= n ==> Mag(After(x, y, rate, n) - y) < eps
  {
    hide Mag, Pow, After;
    samples := Vanishes(1.0 - rate, Mag(x - y), eps);
    forall n | samples <= n
      ensures Mag(After(x, y, rate, n) - y) < eps
    {
      WayLeft(x, y, rate, n);
      PowRange(1.0 - rate, n);
      PowDecreases(1.0 - rate, samples, n);
      Nearer(Pow(1.0 - rate, samples), Pow(1.0 - rate, n), x - y);
    }
  }

  /** An envelope that jumps up to a peak at once and comes down part of the way. */
  function Follow(env: real, now: real, rate: real): real {
    if now > env then now else Moved(env, now, rate)
  }

  /** At once to a peak over it, and otherwise its share of the way down. */
  lemma FollowIs(env: real, now: real, rate: real)
    ensures Follow(env, now, rate) == if now > env then now else env + rate * (now - env)
  {
  }

  function Following(env: real, now: real, rate: real, n: nat): real {
    if n == 0 then env else Follow(Following(env, now, rate, n - 1), now, rate)
  }

  /** A peak over the envelope is followed at once; under it, each sample takes its share of what is left. */
  lemma {:induction false} ComesDownSlowly(env: real, now: real, rate: real, n: nat)
    requires 0.0 < rate < 1.0
    ensures now >= env && n > 0 ==> Following(env, now, rate, n) == now
    ensures now < env ==> Following(env, now, rate, n) - now == Share(Pow(1.0 - rate, n), env - now)
    ensures now < env ==> now <= Following(env, now, rate, n) <= env
  {
    if now >= env {
      if n > 0 {
        ComesDownSlowly(env, now, rate, n - 1);
        AlreadyThere(now, rate);
      }
    } else {
      FollowsAfter(env, now, rate, n);
      WayLeft(env, now, rate, n);
    }
  }

  lemma {:induction false} FollowsAfter(env: real, now: real, rate: real, n: nat)
    requires 0.0 < rate < 1.0 && now < env
    ensures Following(env, now, rate, n) == After(env, now, rate, n) && now <= After(env, now, rate, n) <= env
  {
    hide Moved;
    if n > 0 {
      FollowsAfter(env, now, rate, n - 1);
      MovedBetween(After(env, now, rate, n - 1), now, rate);
    }
  }

  /** The peak is the louder of both channels. */
  lemma PeakIs(l: real, r: real)
    ensures Peak(l, r) == Mag(l) || Peak(l, r) == Mag(r)
    ensures Mag(l) <= Peak(l, r) && Mag(r) <= Peak(l, r)
    ensures Mag(l) == (if l < 0.0 then -l else l)
  {
  }

  function Square(x: real): real {
    Amplified(x, x)
  }

  lemma AmplifiedPositive(x: real, gain: real)
    requires 0.0 < x && 0.0 < gain
    ensures 0.0 < Amplified(x, gain)
  {
  }

  function Cube(x: real): real {
    x * Square(x)
  }

  function Fourth(x: real): real {
    x * Cube(x)
  }

  /** The gain at power -3/4 of the envelope over the ceiling. */
  predicate PowerLaw(gain: real, env: real, ceiling: real) {
    0.0 < gain && Fourth(gain) * Cube(env) == Cube(ceiling)
  }

  lemma CubeOfProduct(x: real, y: real)
    ensures Cube(x * y) == Cube(x) * Cube(y)
  {
    var a, b := Square(x), Square(y);
    assert x * y * (x * y) == a * b;
    assert x * y * (a * b) == x * a * (y * b);
  }

  lemma SquareDifference(x: real, y: real)
    ensures Square(y) - Square(x) == (y - x) * (x + y)
  {
  }

  lemma SquareGrows(x: real, y: real)
    requires 0.0 < x < y
    ensures 0.0 < Square(x)
    ensures Square(x) < Square(y)
  {
    AmplifiedPositive(x, x);
    SquareDifference(x, y);
    Positive(y - x, x + y);
  }

  lemma CubeGrows(x: real, y: real)
    requires 0.0 < x < y
    ensures 0.0 < Cube(x) < Cube(y)
  {
    hide Square;
    var a, b := Square(x), Square(y);
    SquareGrows(x, y);
    Positive(x, a);
    Positive(x, b - a);
    Positive(y - x, b);
    assert Cube(y) - Cube(x) == x * (b - a) + (y - x) * b;
  }

  lemma FourthGrows(x: real, y: real)
    requires 0.0 < x < y
    ensures 0.0 < Fourth(x) < Fourth(y)
  {
    hide Cube;
    CubeGrows(x, y);
    Positive(x, Cube(x));
    Positive(x, Cube(y) - Cube(x));
    Positive(y - x, Cube(y));
    assert Fourth(y) - Fourth(x) == x * (Cube(y) - Cube(x)) + (y - x) * Cube(y);
  }

  /** Four to one: the pressed level's fourth power grows only as fast as the level. */
  lemma FourToOne(gain: real, env: real, ceiling: real)
    requires PowerLaw(gain, env, ceiling)
    ensures Fourth(gain * env) == env * Cube(ceiling)
  {
    hide Cube;
    CubeOfProduct(gain, env);
    var g, e := Cube(gain), Cube(env);
    assert gain * env * (g * e) == env * (gain * g * e);
  }

  /** What is pressed stays over the ceiling, and under where it was. */
  lemma PressedRange(gain: real, env: real, ceiling: real)
    requires PowerLaw(gain, env, ceiling) && 0.0 < ceiling < env
    ensures ceiling < gain * env
    ensures gain < 1.0
  {
    hide Cube, Fourth;
    FourToOne(gain, env, ceiling);
    CubeGrows(ceiling, env);
    Positive(gain, env);
    if gain >= 1.0 {
      FourthAtLeastOne(gain);
      NonNegative(Fourth(gain) - 1.0, Cube(env));
      assert false;
    }
    if gain * env <= ceiling {
      FourthAtMost(gain * env, ceiling);
      Positive(env - ceiling, Cube(ceiling));
      FourthIs(ceiling);
      assert false;
    }
  }

  lemma FourthIs(x: real)
    ensures Fourth(x) == x * Cube(x)
  {
  }

  lemma FourthAtMost(x: real, y: real)
    requires 0.0 < x <= y
    ensures Fourth(x) <= Fourth(y)
  {
    if x < y {
      FourthGrows(x, y);
    }
  }

  lemma FourthAtLeastOne(x: real)
    requires 1.0 <= x
    ensures 1.0 <= Fourth(x)
  {
    FourthAtMost(1.0, x);
    assert Fourth(1.0) == 1.0;
  }

  /** The press keeps the order: louder in, louder out. */
  lemma LouderStaysLouder(g1: real, env1: real, g2: real, env2: real, ceiling: real)
    requires PowerLaw(g1, env1, ceiling) && PowerLaw(g2, env2, ceiling) && 0.0 < ceiling < env1 < env2
    ensures g1 * env1 < g2 * env2
  {
    hide Cube, Fourth;
    FourToOne(g1, env1, ceiling);
    FourToOne(g2, env2, ceiling);
    CubeGrows(ceiling, env1);
    Positive(env2 - env1, Cube(ceiling));
    Positive(g2, env2);
    if g2 * env2 <= g1 * env1 {
      FourthAtMost(g2 * env2, g1 * env1);
      assert false;
    }
  }

  class Chain {
    const levels: Levels
    var duck: real
    var ceilingEnv: real
    var limitEnv: real
    ghost var loudest: real  // the highest peak the limit has seen

    ghost predicate Valid()
      reads this
    {
      && levels.Sane() && levels.ducked <= duck <= 1.0
      && 0.0 <= ceilingEnv && 0.0 <= limitEnv <= loudest
    }

    constructor (levels: Levels)
      requires levels.Sane()
      ensures Valid() && this.levels == levels && loudest == 0.0 && duck == 1.0
    {
      this.levels := levels;
      duck, ceilingEnv, limitEnv, loudest := 1.0, 0.0, 0.0, 0.0;
    }

    /** Down to the ducked level while anyone talks, back up after, never past either end. */
    method Duck(talk: bool)
      requires Valid()
      modifies `duck
      ensures Valid()
      ensures talk ==> duck == Moved(old(duck), levels.ducked, levels.duckDown) && duck <= old(duck)
      ensures !talk ==> duck == Moved(old(duck), 1.0, levels.duckUp) && old(duck) <= duck
    {
      var to := if talk then levels.ducked else 1.0;
      var rate := if to < duck then levels.duckDown else levels.duckUp;
      if talk && to == duck {
        AlreadyThere(to, levels.duckDown);
        AlreadyThere(to, levels.duckUp);
      }
      hide Moved;
      MovedBetween(duck, to, rate);
      duck := Moved(duck, to, rate);
    }

    /** The ceiling's gain, by a power function `press` given the envelope. */
    method Press(peak: real, press: real -> real) returns (gain: real)
      requires Valid() && 0.0 <= peak
      requires forall env :: levels.ceiling < env ==> PowerLaw(press(env), env, levels.ceiling)
      modifies `ceilingEnv
      ensures Valid()
      ensures ceilingEnv ==
        Moved(old(ceilingEnv), peak, if peak > old(ceilingEnv) then levels.attack else levels.release)
      ensures if ceilingEnv > levels.ceiling then PowerLaw(gain, ceilingEnv, levels.ceiling) else gain == 1.0
      ensures 0.0 < gain <= 1.0
    {
      var rate := if peak > ceilingEnv then levels.attack else levels.release;
      hide Moved, PowerLaw;
      MovedBetween(ceilingEnv, peak, rate);
      ceilingEnv := Moved(ceilingEnv, peak, rate);
      gain := 1.0;
      if ceilingEnv > levels.ceiling {
        gain := press(ceilingEnv);
        PressedRange(gain, ceilingEnv, levels.ceiling);
        LawIsPositive(gain, ceilingEnv, levels.ceiling);
      }
    }

    /** The limit acts at once: both channels leave it at or under the limit, scaled alike. */
    method Limit(inL: real, inR: real) returns (l: real, r: real, gain: real)
      requires Valid()
      modifies `limitEnv, `loudest
      ensures Valid() && Peak(inL, inR) <= limitEnv && loudest == MaxR(old(loudest), Peak(inL, inR))
      ensures limitEnv == Follow(old(limitEnv), Peak(inL, inR), levels.limitRelease)
      ensures Mag(l) <= levels.limit && Mag(r) <= levels.limit
      ensures l == Amplified(inL, gain) && r == Amplified(inR, gain) && 0.0 < gain <= 1.0
      ensures gain == if limitEnv > levels.limit then Gain(levels.limit, limitEnv) else 1.0
    {
      var now := Peak(inL, inR);
      hide Moved, Amplified, Gain;
      MovedBetween(limitEnv, now, levels.limitRelease);
      limitEnv := Follow(limitEnv, now, levels.limitRelease);
      loudest := MaxR(loudest, now);
      gain := 1.0;
      AmplifiedByOne(inL);
      AmplifiedByOne(inR);
      if limitEnv > levels.limit {
        GainRange(levels.limit, limitEnv);
        AmplifiedLimits(inL, levels.limit, limitEnv);
        AmplifiedLimits(inR, levels.limit, limitEnv);
        gain := Gain(levels.limit, limitEnv);
      }
      l, r := Amplified(inL, gain), Amplified(inR, gain);
    }

    /**
     One sample from the room to the limit's output, with the gain it came to:
     both channels carry it, so the stereo image stays.
     */
    method Sample(inL: real, inR: real, volume: real, talk: bool, press: real -> real)
      returns (l: real, r: real, gain: real, pressed: real)
      requires Valid() && 0.0 <= volume
      requires forall env :: levels.ceiling < env ==> PowerLaw(press(env), env, levels.ceiling)
      modifies this
      ensures Valid() && Mag(l) <= levels.limit && Mag(r) <= levels.limit
      ensures duck ==
        if talk then Moved(old(duck), levels.ducked, levels.duckDown) else Moved(old(duck), 1.0, levels.duckUp)
      ensures var ducked := Amplified(volume, duck);
        var peak := Peak(Amplified(inL, ducked), Amplified(inR, ducked));
        ceilingEnv == Moved(old(ceilingEnv), peak, if peak > old(ceilingEnv) then levels.attack else levels.release)
      ensures var held := Amplified(Amplified(volume, duck), pressed);
        var peak := Peak(Amplified(inL, held), Amplified(inR, held));
        limitEnv == Follow(old(limitEnv), peak, levels.limitRelease) && loudest == MaxR(old(loudest), peak)
      ensures l == Amplified(inL, gain) && r == Amplified(inR, gain)
      ensures gain == Amplified(Amplified(Amplified(volume, duck), pressed), Held(levels.limit, limitEnv))
      ensures if ceilingEnv > levels.ceiling then PowerLaw(pressed, ceilingEnv, levels.ceiling) else pressed == 1.0
      ensures 0.0 <= gain && gain <= Amplified(volume, duck)
      // with both envelopes at rest only the volume and the duck are heard
      ensures ceilingEnv <= levels.ceiling && limitEnv <= levels.limit ==> gain == Amplified(volume, duck)
    {
      hide Amplified, Mag, MaxR, PowerLaw, Moved, Follow, Gain;
      Duck(talk);
      gain := Amplified(volume, duck);
      Shrinks(volume, duck);
      var x, y := Amplified(inL, gain), Amplified(inR, gain);
      PeakNotNegative(x, y);
      pressed := Press(Peak(x, y), press);
      AmplifiedTwice(inL, gain, pressed);
      AmplifiedTwice(inR, gain, pressed);
      AmplifiedByOne(gain);
      Shrinks(gain, pressed);
      gain := Amplified(gain, pressed);
      x, y := Amplified(x, pressed), Amplified(y, pressed);
      var limited;
      l, r, limited := Limit(x, y);
      AmplifiedTwice(inL, gain, limited);
      AmplifiedTwice(inR, gain, limited);
      AmplifiedByOne(gain);
      Shrinks(gain, limited);
      gain := Amplified(gain, limited);
    }
  }

  /** The gain that holds an envelope to the limit: none of it while it is under. */
  function Held(limit: real, env: real): real {
    if env > limit && env != 0.0 then Gain(limit, env) else 1.0
  }

  lemma AlreadyThere(x: real, rate: real)
    ensures Moved(x, x, rate) == x
  {
  }

  lemma LawIsPositive(gain: real, env: real, ceiling: real)
    requires PowerLaw(gain, env, ceiling)
    ensures 0.0 < gain
  {
  }

  lemma AmplifiedTwice(x: real, g: real, h: real)
    ensures Amplified(Amplified(x, g), h) == Amplified(x, Amplified(g, h))
  {
  }

  lemma Shrinks(gain: real, share: real)
    requires 0.0 <= gain && 0.0 <= share <= 1.0
    ensures 0.0 <= Amplified(gain, share) && Amplified(gain, share) <= gain
  {
    NonNegative(gain, share);
    NonNegative(gain, 1.0 - share);
    Splits(share, gain);
  }

  /** What the gains come to, multiplied out. */
  lemma GainWritten(x: real, volume: real, duck: real, pressed: real, limit: real, env: real)
    requires 0.0 < limit
    ensures Amplified(x, volume) == x * volume
    ensures Amplified(Amplified(Amplified(volume, duck), pressed), Held(limit, env))
      == volume * duck * pressed * (if env > limit then limit / env else 1.0)
  {
  }

  /** Nearest integer to a saturated channel at full scale. */
  function Rounded(x: real): int {
    (x * 32767.0 + 0.5).Floor
  }

  /** Saturation only lowers a magnitude, so what is written always fits 16 bits, and the limit's own level. */
  lemma FitsSixteenBits(x: real, saturated: real, limit: real)
    requires 0.0 < limit < 1.0 && Mag(x) <= limit && Mag(saturated) <= Mag(x)
    ensures -32768 < Rounded(saturated) < 32768
    ensures Mag(Rounded(saturated) as real) <= limit * 32767.0 + 0.5
    ensures Mag(Rounded(saturated) as real - 32767.0 * saturated) <= 0.5
  {
  }
}
