/** Signals into levels: a stepper for each of the first sixteen cores and for each other signal. */
module HumMap {
  import opened Arithmetic
  import S = Stepper
  import HumLine
  import HumText

  const STALL := 16
  const CPU_WAIT := 17
  const IO_WAIT := 18
  const SPAWN := 19
  const SCHED := 20
  const NET := 21
  const DISK := 22
  const STEPPERS := 23

  /** One sample, each signal already on its own scale: linear, or the logarithm the sampler's units call for. */
  datatype Signals = Signals(cores: seq<real>, stall: real, cpuWait: real, ioWait: real, spawn: real, sched: real,
                             net: real, disk: real, logErrors: int, inbound: int)

  /** What stepper `k` is fed, if anything: cores past the sixteenth have none. */
  function FedTo(sig: Signals, k: nat): seq<real> {
    if k < STALL then (if k < |sig.cores| then [sig.cores[k]] else [])
    else if k == STALL then [sig.stall]
    else if k == CPU_WAIT then [sig.cpuWait]
    else if k == IO_WAIT then [sig.ioWait]
    else if k == SPAWN then [sig.spawn]
    else if k == SCHED then [sig.sched]
    else if k == NET then [sig.net]
    else [sig.disk]
  }

  class Map {
    const steppers: seq<S.Stepper>

    ghost predicate Valid()
      reads steppers
    {
      && |steppers| == STEPPERS
      && (forall i, j :: 0 <= i < j < STEPPERS ==> steppers[i] != steppers[j])
      && forall i :: 0 <= i < STEPPERS ==> steppers[i].Now().Sound()
    }

    ghost function Now(): (s: seq<S.State>)
      requires Valid()
      reads steppers
      ensures |s| == STEPPERS
    {
      seq(STEPPERS, i requires 0 <= i < STEPPERS && Valid() reads steppers => steppers[i].Now())
    }

    constructor ()
      ensures Valid() && forall i :: 0 <= i < STEPPERS ==> Now()[i] == S.ZERO
    {
      var s: seq<S.Stepper> := [];
      for i := 0 to STEPPERS
        invariant |s| == i && forall k :: 0 <= k < i ==> fresh(s[k]) && s[k].Now() == S.ZERO
        invariant forall j, k :: 0 <= j < k < i ==> s[j] != s[k]
      {
        var one := new S.Stepper();
        s := s + [one];
      }
      steppers := s;
    }

    method Feed(k: nat, value: real) returns (step: nat)
      requires Valid() && k < STEPPERS
      modifies steppers
      ensures Valid() && Now() == old(Now())[k := S.Fed(old(Now())[k], value)]
      ensures step == Now()[k].step && step <= 15
    {
      hide S.Fed;
      var out := steppers[k].Feed(value);
      step := out;
    }

    /** Every stepper as one sample leaves it, the ones fed so far done. */
    ghost predicate Done(was: seq<S.State>, sig: Signals, k: nat)
      requires Valid() && |was| == STEPPERS
      reads steppers
    {
      forall i :: 0 <= i < STEPPERS ==> Now()[i] == if i < k then S.Run(was[i], FedTo(sig, i)) else was[i]
    }

    method Cores(sig: Signals) returns (cores: seq<nat>)
      requires Valid()
      modifies steppers
      ensures Valid() && Done(old(Now()), sig, STALL)
      ensures |cores| == Min(|sig.cores|, STALL)
      ensures forall i :: 0 <= i < |cores| ==> cores[i] == Now()[i].step && cores[i] <= 15
      ensures forall i :: 0 <= i < |cores| ==> cores[i] == S.Fed(old(Now())[i], sig.cores[i]).step
    {
      hide S.Fed, S.Run;
      ghost var was := Now();
      var count := Min(|sig.cores|, STALL);
      cores := [];
      for i := 0 to count
        invariant Valid() && |cores| == i
        invariant forall k :: 0 <= k < STEPPERS ==> Now()[k] == if k < i then S.Fed(was[k], sig.cores[k]) else was[k]
        invariant forall k :: 0 <= k < i ==> cores[k] == Now()[k].step && cores[k] <= 15
      {
        var step := Feed(i, sig.cores[i]);
        cores := cores + [step];
      }
      FedOnce(was, sig);
    }

    method Next(ghost was: seq<S.State>, ghost sig: Signals, k: nat, value: real) returns (step: nat)
      requires Valid() && k < STEPPERS == |was| && Done(was, sig, k) && FedTo(sig, k) == [value]
      modifies steppers
      ensures Valid() && Done(was, sig, k + 1)
      ensures Now() == old(Now())[k := Now()[k]] && step == Now()[k].step && step <= 15
      ensures step == S.Fed(was[k], value).step
    {
      hide S.Fed, S.Run, Now, Valid;
      FedOnce(was, sig);
      step := Feed(k, value);
    }

    /** One sample of all signals: each stepper steps once on its own, and shows a level the line can carry. */
    method Sample(sig: Signals) returns (steps: HumLine.Steps, error: bool, inbound: bool)
      requires Valid()
      modifies steppers
      ensures Valid() && Done(old(Now()), sig, STEPPERS)
      ensures HumText.FairLevels(steps) && steps.crew == [] && !steps.talk
      ensures |steps.cores| == Min(|sig.cores|, HumLine.MAX_CORES)
      ensures forall i :: 0 <= i < |steps.cores| ==>
        steps.cores[i] == Now()[i].step && steps.cores[i] <= HumLine.MAX_STEP
      // each signal through its own stepper, from where that one was
      ensures forall i :: 0 <= i < |steps.cores| ==> steps.cores[i] == S.Fed(old(Now())[i], sig.cores[i]).step
      ensures steps.stall == S.Fed(old(Now())[16], sig.stall).step
      ensures steps.cpuWait == S.Fed(old(Now())[17], sig.cpuWait).step
      ensures steps.ioWait == S.Fed(old(Now())[18], sig.ioWait).step
      ensures steps.spawn == S.Fed(old(Now())[19], sig.spawn).step
      ensures steps.sched == S.Fed(old(Now())[20], sig.sched).step
      ensures steps.net == S.Fed(old(Now())[21], sig.net).step
      ensures steps.disk == S.Fed(old(Now())[22], sig.disk).step
      ensures steps.stall == Now()[STALL].step && steps.cpuWait == Now()[CPU_WAIT].step
      ensures steps.ioWait == Now()[IO_WAIT].step && steps.spawn == Now()[SPAWN].step
      ensures steps.sched == Now()[SCHED].step && steps.net == Now()[NET].step && steps.disk == Now()[DISK].step
      ensures error == (sig.logErrors > 0) && inbound == (sig.inbound > 0)
    {
      hide S.Fed, S.Run, Valid, Now, Done, FedTo;
      ghost var was := Now();
      var cores := Cores(sig);
      FedTheRest(sig);
      var stall := Next(was, sig, STALL, sig.stall);
      var cpuWait := Next(was, sig, CPU_WAIT, sig.cpuWait);
      var ioWait := Next(was, sig, IO_WAIT, sig.ioWait);
      var spawn := Next(was, sig, SPAWN, sig.spawn);
      var sched := Next(was, sig, SCHED, sig.sched);
      var net := Next(was, sig, NET, sig.net);
      var disk := Next(was, sig, DISK, sig.disk);
      steps := HumLine.Steps(stall, net, disk, spawn, sched, cpuWait, ioWait, cores, false, []);
      error, inbound := sig.logErrors > 0, sig.inbound > 0;
    }
  }

  lemma FedTheRest(sig: Signals)
    ensures FedTo(sig, STALL) == [sig.stall] && FedTo(sig, CPU_WAIT) == [sig.cpuWait]
    ensures FedTo(sig, IO_WAIT) == [sig.ioWait] && FedTo(sig, SPAWN) == [sig.spawn]
    ensures FedTo(sig, SCHED) == [sig.sched] && FedTo(sig, NET) == [sig.net] && FedTo(sig, DISK) == [sig.disk]
  {
  }

  lemma FedOnce(was: seq<S.State>, sig: Signals)
    requires |was| == STEPPERS
    ensures forall i :: 0 <= i < STEPPERS ==>
      S.Run(was[i], FedTo(sig, i)) == if FedTo(sig, i) == [] then was[i] else S.Fed(was[i], FedTo(sig, i)[0])
  {
  }
}
