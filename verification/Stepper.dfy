/** A signal into a step 0-15: averaged, and held until the average has clearly left it. */
module Stepper {
  import opened Reals

  const RATE := 0.22
  const BAND := 0.7

  /** The average and the step it shows as. */
  datatype State = State(level: real, step: int) {
    function Gap(): real {
      15.0 * level - step as real
    }

    /** What every run keeps. */
    predicate Sound() {
      0.0 <= level <= 1.0 && 0 <= step <= 15 && Mag(Gap()) <= BAND
    }
  }

  const ZERO := State(0.0, 0)

  function Clamp(v: real): real {
    if v < 0.0 then 0.0 else if v > 1.0 then 1.0 else v
  }

  /** To the nearest, halves away from zero; only called on what is not negative. */
  function Nearest(x: real): int {
    (x + 0.5).Floor
  }

  function Fed(s: State, v: real): State {
    var level := s.level + RATE * (Clamp(v) - s.level);
    var target := level * 15.0;
    State(level, if target > s.step as real + BAND || target < s.step as real - BAND then Nearest(target) else s.step)
  }

  class Stepper {
    var level: real
    var step: int

    function Now(): State
      reads this
    {
      State(level, step)
    }

    constructor ()
      ensures Now() == ZERO
    {
      level, step := 0.0, 0;
    }

    method Feed(value: real) returns (out: int)
      requires Now().Sound()
      modifies this
      ensures Now() == Fed(old(Now()), value) && out == step
      ensures Now().Sound()
      // a signal outside 0 to 1 counts as the end it passed; the average goes 0.22 of the way
      ensures level == 0.78 * old(level) + 0.22 * (if value < 0.0 then 0.0 else if value > 1.0 then 1.0 else value)
      // the step stays while the average is within 0.7 of it, and goes to the nearest when it is not
      ensures -0.7 <= 15.0 * level - old(step) as real <= 0.7 ==> step == old(step)
      ensures !(-0.7 <= 15.0 * level - old(step) as real <= 0.7) ==> -0.5 <= 15.0 * level - step as real < 0.5
    {
      FedSound(Now(), value);
      var v := value;
      if v < 0.0 {
        v := 0.0;
      }
      if v > 1.0 {
        v := 1.0;
      }
      level := level + RATE * (v - level);
      var target := level * 15.0;
      if target > step as real + BAND || target < step as real - BAND {
        step := Nearest(target);
      }
      out := step;
    }
  }

  lemma FedSound(s: State, v: real)
    requires s.Sound()
    ensures Fed(s, v).Sound()
    ensures Fed(s, v).step != s.step ==>
      Mag(Fed(s, v).Gap()) <= 0.5 && Mag(15.0 * Fed(s, v).level - s.step as real) > BAND
  {
    var t := Fed(s, v);
    assert t.level == 0.78 * s.level + RATE * Clamp(v);
    assert Nearest(t.level * 15.0) as real <= t.level * 15.0 + 0.5 < Nearest(t.level * 15.0) as real + 1.0;
  }

  // ---- whole runs ----

  function Run(s: State, vs: seq<real>): State {
    if vs == [] then s else Fed(Run(s, vs[..|vs| - 1]), vs[|vs| - 1])
  }

  /** How often the step changed. */
  function Changes(s: State, vs: seq<real>): nat {
    if vs == [] then 0
    else
      var was := Run(s, vs[..|vs| - 1]);
      Changes(s, vs[..|vs| - 1]) + (if Fed(was, vs[|vs| - 1]).step != was.step then 1 else 0)
  }

  /** How far the average travelled, in steps. */
  function Travelled(s: State, vs: seq<real>): real {
    if vs == [] then 0.0
    else
      var was := Run(s, vs[..|vs| - 1]);
      Travelled(s, vs[..|vs| - 1]) + Mag(15.0 * Fed(was, vs[|vs| - 1]).level - 15.0 * was.level)
  }

  lemma {:induction false} RunSound(s: State, vs: seq<real>)
    requires s.Sound()
    ensures Run(s, vs).Sound()
  {
    if vs != [] {
      RunSound(s, vs[..|vs| - 1]);
      FedSound(Run(s, vs[..|vs| - 1]), vs[|vs| - 1]);
    }
  }

  /** Beyond half a step, the distance still to be paid for. */
  function Debt(s: State): real {
    MaxR(Mag(s.Gap()) - 0.5, 0.0)
  }

  /** A step change costs at least a fifth of a step's travel; the debt carries it from one change to the next. */
  lemma {:induction false} ChangesCostTravel(s: State, vs: seq<real>)
    requires s.Sound()
    ensures 0.2 * Changes(s, vs) as real + Debt(Run(s, vs)) <= Travelled(s, vs) + Debt(s)
  {
    if vs != [] {
      var init := vs[..|vs| - 1];
      ChangesCostTravel(s, init);
      RunSound(s, init);
      FedSound(Run(s, init), vs[|vs| - 1]);
    }
  }

  /** From rest: at most five changes for each step's worth of travel. */
  lemma ChangesBounded(vs: seq<real>)
    ensures 0.2 * Changes(ZERO, vs) as real <= Travelled(ZERO, vs)
  {
    ChangesCostTravel(ZERO, vs);
  }

  // ---- a constant input ----

  function Held(v: real, n: nat): (vs: seq<real>)
    ensures |vs| == n
  {
    seq(n, _ => v)
  }

  /** One more of the same input. */
  lemma HeldNext(s: State, v: real, n: nat)
    ensures var was, now := Run(s, Held(v, n)), Run(s, Held(v, n + 1));
      && now == Fed(was, v) && now.level == was.level + RATE * (Clamp(v) - was.level)
      && Travelled(s, Held(v, n + 1)) == Travelled(s, Held(v, n)) + Mag(15.0 * now.level - 15.0 * was.level)
      && Changes(s, Held(v, n + 1)) == Changes(s, Held(v, n)) + if now.step != was.step then 1 else 0
  {
    assert Held(v, n + 1)[..n] == Held(v, n) && Held(v, n + 1)[n] == v;
  }

  /** What is left of a distance `d` after shrinking by the factor `p`, and the travel, in steps, that took it away. */
  function Left(p: real, d: real): real {
    p * d
  }

  function Gone(p: real, d: real): real {
    15.0 * ((1.0 - p) * Mag(d))
  }

  /** The average closes on the input by the same factor each time, and its travel is what it closed. */
  lemma {:induction false} Closes(s: State, v: real, n: nat)
    ensures Run(s, Held(v, n)).level - Clamp(v) == Left(Pow(0.78, n), s.level - Clamp(v))
    ensures Travelled(s, Held(v, n)) == Gone(Pow(0.78, n), s.level - Clamp(v))
    decreases n, 0
  {
    if n > 0 {
      ClosesOne(s, v, n - 1);
    } else {
      assert Held(v, 0) == [];
    }
  }

  lemma {:induction false} ClosesOne(s: State, v: real, n: nat)
    ensures Run(s, Held(v, n + 1)).level - Clamp(v) == Left(Pow(0.78, n + 1), s.level - Clamp(v))
    ensures Travelled(s, Held(v, n + 1)) == Gone(Pow(0.78, n + 1), s.level - Clamp(v))
    decreases n, 1
  {
    hide Run, Travelled, Fed, Clamp, Mag, Held, Left, Gone, Pow;
    Closes(s, v, n);
    HeldNext(s, v, n);
    PowRange(0.78, n);
    PowNext(n);
    ClosesStep(Run(s, Held(v, n)).level, Clamp(v), Pow(0.78, n), s.level - Clamp(v));
  }

  lemma PowNext(n: nat)
    ensures Pow(0.78, n + 1) == 0.78 * Pow(0.78, n)
  {
  }

  lemma ClosesStep(level: real, v: real, p: real, d: real)
    requires level - v == Left(p, d) && 0.0 <= p <= 1.0
    ensures var next := level + RATE * (v - level);
      next - v == Left(0.78 * p, d) && Gone(p, d) + Mag(15.0 * next - 15.0 * level) == Gone(0.78 * p, d)
  {
    var next, m, g := level + RATE * (v - level), p * d, p * Mag(d);
    assert next - level == -0.22 * m;
    assert 0.78 * p * d == 0.78 * m;
    Product(p, d, Mag(d));
    assert Mag(15.0 * next - 15.0 * level) == 3.3 * Mag(m);
    assert (1.0 - p) * Mag(d) == Mag(d) - g;
    assert (1.0 - 0.78 * p) * Mag(d) == Mag(d) - 0.78 * g;
  }

  ghost predicate Settled(s: State, v: real, n: nat) {
    forall m {:trigger Held(v, m)} :: n <= m ==> Run(s, Held(v, m)).step == Run(s, Held(v, n)).step
  }

  lemma ChangesNext(s: State, v: real, n: nat)
    ensures Changes(s, Held(v, n + 1)) ==
      Changes(s, Held(v, n)) + if Run(s, Held(v, n + 1)).step != Run(s, Held(v, n)).step then 1 else 0
  {
    HeldNext(s, v, n);
  }

  lemma {:induction false} SameChangesSameStep(s: State, v: real, n: nat, m: nat)
    requires n <= m
    ensures Changes(s, Held(v, n)) <= Changes(s, Held(v, m))
    ensures Changes(s, Held(v, n)) == Changes(s, Held(v, m)) ==> Run(s, Held(v, n)).step == Run(s, Held(v, m)).step
  {
    if n < m {
      hide Run, Changes, Held;
      SameChangesSameStep(s, v, n, m - 1);
      ChangesNext(s, v, m - 1);
    }
  }

  lemma GoneBounded(p: real, d: real)
    requires 0.0 <= p <= 1.0 && Mag(d) <= 1.0
    ensures Gone(p, d) <= 15.0
  {
    NonNegative(1.0 - p, 1.0 - Mag(d));
    GoneIs(p, Mag(d));
  }

  lemma GoneIs(p: real, m: real)
    ensures (1.0 - p) * (1.0 - m) == 1.0 - p - (1.0 - p) * m
  {
  }

  lemma DebtIsOwed(s: State)
    ensures 0.0 <= Debt(s)
  {
  }

  lemma Whole(c: nat)
    requires 0.2 * c as real <= 15.2
    ensures c <= 76
  {
  }

  lemma FewChanges(s: State, v: real, n: nat)
    requires s.Sound()
    ensures Changes(s, Held(v, n)) <= 76
  {
    assert Debt(s) <= 0.2;
    hide Changes, Travelled, Run, Pow, Gone, Debt, Held;
    ChangesCostTravel(s, Held(v, n));
    Closes(s, v, n);
    PowRange(0.78, n);
    GoneBounded(Pow(0.78, n), s.level - Clamp(v));
    DebtIsOwed(Run(s, Held(v, n)));
    assert 0.2 * Changes(s, Held(v, n)) as real <= 15.2;
    Whole(Changes(s, Held(v, n)));
  }

  lemma Settles(s: State, v: real, from: nat) returns (n: nat)
    requires s.Sound()
    ensures from <= n && Settled(s, v, n)
    decreases 76 - Changes(s, Held(v, from))
  {
    n := from;
    if !Settled(s, v, from) {
      var m :| from <= m && Run(s, Held(v, m)).step != Run(s, Held(v, from)).step;
      SameChangesSameStep(s, v, from, m);
      FewChanges(s, v, m);
      n := Settles(s, v, m);
    }
  }

  /** Under a constant input the step comes to rest, within the band around the input. */
  lemma ConstantInputSettles(s: State, v: real) returns (n: nat)
    requires s.Sound()
    ensures Settled(s, v, n)
    ensures Mag(15.0 * Clamp(v) - Run(s, Held(v, n)).step as real) <= BAND
  {
    hide Run, Clamp, Pow;
    n := Settles(s, v, 0);
    var rest := Run(s, Held(v, n)).step;
    var off := Mag(15.0 * Clamp(v) - rest as real) - BAND;
    if off > 0.0 {
      var m := ComesClose(s, v, n, off);
      RunSound(s, Held(v, m));
    }
  }

  lemma ComesClose(s: State, v: real, from: nat, off: real) returns (m: nat)
    requires 0.0 < off
    ensures from <= m && Mag(15.0 * Run(s, Held(v, m)).level - 15.0 * Clamp(v)) < off
  {
    hide Run, Clamp, Travelled, Pow, Held;
    var d := s.level - Clamp(v);
    var k := Vanishes(0.78, 15.0 * Mag(d), off);
    m := if from <= k then k else from;
    PowDecreases(0.78, k, m);
    PowRange(0.78, m);
    Closes(s, v, m);
    SmallerStill(Pow(0.78, m), Pow(0.78, k), d, off);
  }

  lemma SmallerStill(p: real, q: real, d: real, off: real)
    requires 0.0 <= p <= q && 15.0 * Mag(d) * q < off
    ensures 15.0 * Mag(Left(p, d)) < off
  {
    Product(p, d, Mag(d));
    assert (q - p) * Mag(d) >= 0.0;
    assert 15.0 * Mag(d) * q == 15.0 * (q * Mag(d));
  }
}
