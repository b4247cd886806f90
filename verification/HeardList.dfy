/** What has been heard lately: the history's run-length encoding, kept in eight slots. */
module HeardList {
  import opened Arithmetic
  import opened Ring
  import opened Words

  const SLOTS := 8
  const WHAT := 79
  const TIMES := 15
  const REPLY := 960

  datatype Sound = Sound(when: string, what: string)

  datatype Run = Run(when: string, what: string, times: nat)

  function Last<T>(s: seq<T>): T
    requires s != []
  {
    s[|s| - 1]
  }

  function Init<T>(s: seq<T>): seq<T>
    requires s != []
  {
    s[..|s| - 1]
  }

  lemma Snoc<T>(s: seq<T>, x: T)
    ensures Init(s + [x]) == s && Last(s + [x]) == x
  {
  }

  /** The same sound again folds into its run, under the newer time. */
  function Folded(runs: seq<Run>, s: Sound): (r: seq<Run>)
    ensures |runs| <= |r| <= |runs| + 1 && r != []
  {
    if runs != [] && Last(runs).what == s.what then Init(runs) + [Run(s.when, s.what, Last(runs).times + 1)]
    else runs + [Run(s.when, Cut(s.what, WHAT), 1)]
  }

  function Runs(history: seq<Sound>): seq<Run> {
    if history == [] then [] else Folded(Runs(Init(history)), Last(history))
  }

  // ---- the runs are the history's run-length encoding ----

  function Texts(history: seq<Sound>): seq<string> {
    if history == [] then [] else Texts(Init(history)) + [Last(history).what]
  }

  function Repeated(what: string, times: nat): (ts: seq<string>)
    ensures |ts| == times && forall i :: 0 <= i < times ==> ts[i] == what
  {
    if times == 0 then [] else Repeated(what, times - 1) + [what]
  }

  function Expanded(runs: seq<Run>): seq<string> {
    if runs == [] then [] else Expanded(Init(runs)) + Repeated(Last(runs).what, Last(runs).times)
  }

  /** No run is empty, and no two neighbours are alike. */
  ghost predicate Proper(runs: seq<Run>) {
    && (forall i :: 0 <= i < |runs| ==> 0 < runs[i].times)
    && forall i :: 0 < i < |runs| ==> runs[i - 1].what != runs[i].what
  }

  ghost predicate Short(history: seq<Sound>) {
    forall i :: 0 <= i < |history| ==> |history[i].what| <= WHAT
  }

  lemma ExpandedNext(runs: seq<Run>, r: Run)
    ensures Expanded(runs + [r]) == Expanded(runs) + Repeated(r.what, r.times)
  {
    Snoc(runs, r);
  }

  lemma {:induction false} RunsExpand(history: seq<Sound>)
    requires Short(history)
    ensures Expanded(Runs(history)) == Texts(history) && Proper(Runs(history))
  {
    hide Folded, Expanded, Proper;
    if history == [] {
      NoRuns();
    } else {
      RunsExpand(Init(history));
      FoldedExpands(Runs(Init(history)), Last(history));
    }
  }

  lemma NoRuns()
    ensures Expanded([]) == [] && Proper([])
  {
  }

  lemma FoldedExpands(runs: seq<Run>, s: Sound)
    requires Proper(runs) && |s.what| <= WHAT
    ensures Expanded(Folded(runs, s)) == Expanded(runs) + [s.what] && Proper(Folded(runs, s))
  {
    hide Expanded;
    if runs != [] && Last(runs).what == s.what {
      var r := Last(runs);
      assert runs == Init(runs) + [r];
      ExpandedNext(Init(runs), r);
      ExpandedNext(Init(runs), Run(s.when, s.what, r.times + 1));
    } else {
      ExpandedNext(runs, Run(s.when, s.what, 1));
      assert Repeated(s.what, 1) == [s.what];
    }
  }

  /** One sound less at the end of a list of runs. */
  function Shortened(runs: seq<Run>): seq<Run>
    requires runs != [] && 0 < Last(runs).times
  {
    var r := Last(runs);
    Init(runs) + if r.times == 1 then [] else [Run(r.when, r.what, r.times - 1)]
  }

  lemma ShortenedExpands(runs: seq<Run>)
    requires Proper(runs) && runs != []
    ensures Proper(Shortened(runs)) && Expanded(runs) == Expanded(Shortened(runs)) + [Last(runs).what]
  {
    hide Expanded;
    var r := Last(runs);
    assert runs == Init(runs) + [r];
    ExpandedNext(Init(runs), r);
    if r.times > 1 {
      ExpandedNext(Init(runs), Run(r.when, r.what, r.times - 1));
    } else {
      assert Repeated(r.what, 1) == [r.what];
      assert Shortened(runs) == Init(runs);
    }
  }

  ghost predicate SameRuns(a: seq<Run>, b: seq<Run>) {
    |a| == |b| && forall i :: 0 <= i < |a| ==> a[i].what == b[i].what && a[i].times == b[i].times
  }

  /** There is no other proper way to write the same sounds as runs. */
  lemma {:induction false} OneEncoding(a: seq<Run>, b: seq<Run>)
    requires Proper(a) && Proper(b) && Expanded(a) == Expanded(b)
    ensures SameRuns(a, b)
    decreases |Expanded(a)|
  {
    if a == [] || b == [] {
      EmptyExpands(a);
      EmptyExpands(b);
    } else {
      ShortenedExpands(a);
      ShortenedExpands(b);
      var x, y := Shortened(a), Shortened(b);
      var s, t := Expanded(x), Expanded(y);
      Snoc(s, Last(a).what);
      Snoc(t, Last(b).what);
      OneEncoding(x, y);
      LastsAgree(a, b);
    }
  }

  lemma EmptyExpands(runs: seq<Run>)
    requires Proper(runs)
    ensures Expanded(runs) == [] <==> runs == []
  {
    if runs != [] {
      ShortenedExpands(runs);
    }
  }

  /** A run of one leaves the run before it; a longer one leaves its own sound at the end. */
  lemma ShortenedLast(runs: seq<Run>)
    requires Proper(runs) && runs != []
    ensures var s := Shortened(runs);
      && |s| == (if Last(runs).times == 1 then |runs| - 1 else |runs|)
      && (Last(runs).times > 1 <==> s != [] && Last(s).what == Last(runs).what)
      && 0 < Last(runs).times && (Last(runs).times > 1 ==> Last(s).times == Last(runs).times - 1)
      && forall i :: 0 <= i < |runs| - 1 ==> s[i] == runs[i]
  {
    if Last(runs).times == 1 && |runs| > 1 {
      assert runs[|runs| - 2].what != runs[|runs| - 1].what;
    }
  }

  lemma LastsAgree(a: seq<Run>, b: seq<Run>)
    requires Proper(a) && Proper(b) && a != [] && b != []
    requires Last(a).what == Last(b).what && SameRuns(Shortened(a), Shortened(b))
    ensures SameRuns(a, b)
  {
    hide Shortened, Proper;
    ShortenedLast(a);
    ShortenedLast(b);
  }

  lemma {:induction false} SlotsSuffice(history: seq<Sound>)
    ensures forall r :: r in Runs(history) ==> |r.what| <= WHAT
  {
    if history != [] {
      SlotsSuffice(Init(history));
    }
  }

  /** A text too long for its slot never folds: every time it is heard it is a line of its own. */
  lemma LongNeverFolds(history: seq<Sound>, s: Sound)
    requires |s.what| > WHAT
    ensures Runs(history + [s]) == Runs(history) + [Run(s.when, Cut(s.what, WHAT), 1)]
  {
    Snoc(history, s);
    SlotsSuffice(history);
    if Runs(history) != [] {
      assert Last(Runs(history)) in Runs(history);
    }
  }

  /** The same sound again: its run counts one more and carries the newer time; any other begins a run. */
  lemma HeardAgain(history: seq<Sound>, s: Sound)
    ensures var was, now := Runs(history), Runs(history + [s]);
      if was != [] && was[|was| - 1].what == s.what then
        |now| == |was| && now[..|was| - 1] == was[..|was| - 1]
        && now[|was| - 1] == Run(s.when, s.what, was[|was| - 1].times + 1)
      else
        |now| == |was| + 1 && now[..|was|] == was
        && now[|was|] == Run(s.when, if |s.what| <= 79 then s.what else s.what[..79], 1)
  {
    Snoc(history, s);
  }

  /** The newest line is the newest sound's, in text and time. */
  lemma NewestIsNewest(history: seq<Sound>)
    requires history != []
    ensures Runs(history) != []
    ensures var r, s := Last(Runs(history)), Last(history); r.when == s.when && r.what == Cut(s.what, 79)
  {
    SlotsSuffice(Init(history));
    var runs, s := Runs(Init(history)), Last(history);
    if runs != [] && Last(runs).what == s.what {
      assert Last(runs) in runs;
    }
  }

  // ---- the reply ----

  function Times(times: nat): string {
    if times > 1 then Cut(" (x" + Digits(times) + ")", TIMES) else ""
  }

  function LineOf(r: Run): string {
    r.when + " " + r.what + Times(r.times) + "\n"
  }

  /** A line of the reply: time, text, and how often when more than once. */
  lemma LineWritten(r: Run)
    ensures r.times <= 1 ==> LineOf(r) == r.when + " " + r.what + "\n"
    ensures r.times > 1 && |Digits(r.times)| <= 11 ==>
      LineOf(r) == r.when + " " + r.what + (" (x" + Digits(r.times) + ")") + "\n"
  {
    hide Digits;
    assert r.when + " " + r.what + "" == r.when + " " + r.what;
  }

  /** Newest first. */
  function Listing(runs: seq<Run>): string {
    if runs == [] then "" else LineOf(Last(runs)) + Listing(Init(runs))
  }

  lemma ListingEmpty()
    ensures Listing([]) == ""
  {
  }

  lemma ListingNext(runs: seq<Run>, k: nat)
    requires 0 < k <= |runs|
    ensures Listing(runs[..k]) == LineOf(runs[k - 1]) + Listing(runs[..k - 1])
  {
    assert Init(runs[..k]) == runs[..k - 1];
  }

  lemma ReplyNext(runs: seq<Run>, k: nat, text: string, line: string)
    requires Fits(runs) && 0 < k <= |runs| && line == LineOf(runs[k - 1])
    ensures |line| <= 111 && text + line + Listing(runs[..k - 1]) == text + Listing(runs[..k])
  {
    hide LineOf, Listing;
    ListingNext(runs, k);
  }

  lemma LineLength(r: Run)
    requires |r.when| <= 15 && |r.what| <= WHAT
    ensures |LineOf(r)| <= 111
  {
    hide Digits, Cut;
  }

  ghost predicate Fits(runs: seq<Run>) {
    forall i :: 0 <= i < |runs| ==> |LineOf(runs[i])| <= 111
  }

  lemma {:induction false} ListingFits(runs: seq<Run>)
    requires Fits(runs)
    ensures |Listing(runs)| <= 111 * |runs|
  {
    hide LineOf;
    if runs != [] {
      ListingFits(Init(runs));
    }
  }

  lemma {:induction false} RunsFit(history: seq<Sound>)
    requires forall i :: 0 <= i < |history| ==> |history[i].when| <= 15
    ensures forall r :: r in Runs(history) ==> |r.when| <= 15
  {
    if history != [] {
      RunsFit(Init(history));
    }
  }

  lemma BackOne(k: nat)
    requires 0 < k
    ensures (k % SLOTS - 1 + SLOTS) % SLOTS == (k - 1) % SLOTS
  {
  }

  lemma BackBy(k: nat, i: nat)
    requires i < k && i < SLOTS
    ensures (k % SLOTS - 1 - i + SLOTS) % SLOTS == (k - 1 - i) % SLOTS
  {
  }

  lemma OnOne(k: nat)
    ensures (k % SLOTS + 1) % SLOTS == (k + 1) % SLOTS
  {
  }

  /** Writing over the newest slot replaces the newest entry. */
  lemma Amend<T>(slots: seq<T>, init: seq<T>, x: T, y: T)
    requires Holds(slots, init + [x])
    ensures Holds(slots[|init| % |slots| := y], init + [y])
  {
    var n, h, g := |slots|, init + [x], init + [y];
    forall i | 0 <= i < |g| && |g| <= i + n
      ensures slots[|init| % n := y][i % n] == g[i]
    {
      if i < |init| {
        NearbySlotsDiffer(i, |init|, n);
        assert slots[i % n] == h[i];
      }
    }
  }

  /** The runs the slots still hold. */
  function Shown(history: seq<Sound>): (runs: seq<Run>)
    ensures |runs| <= SLOTS
  {
    LastN(Runs(history), SLOTS)
  }

  class Heard {
    const slots: array<Run>
    var next: nat
    var count: nat
    ghost var history: seq<Sound>

    ghost predicate Valid()
      reads this, slots
    {
      var runs := Runs(history);
      && slots.Length == SLOTS && next == |runs| % SLOTS && count == Min(|runs|, SLOTS)
      && Holds(slots[..], runs)
      && forall i :: 0 <= i < |history| ==> |history[i].when| <= 15
    }

    constructor ()
      ensures Valid() && history == [] && fresh(slots)
    {
      slots := new Run[SLOTS](_ => Run("", "", 0));
      next, count, history := 0, 0, [];
    }

    /** The newest slot takes the same sound again; any other goes in the slot after it. */
    method Add(s: Sound)
      requires Valid() && |s.when| <= 15
      modifies this, slots
      ensures Valid() && history == old(history) + [s]
    {
      hide Holds, Init, Last;
      ghost var runs := Runs(history);
      var last := (next - 1 + SLOTS) % SLOTS;
      Snoc(history, s);
      Newest(slots[..], runs);
      OnOne(|runs|);
      if count > 0 && slots[last].what == s.what {
        ghost var was := slots[..];
        InitLast(runs);
        Amend(was, Init(runs), Last(runs), Run(s.when, s.what, Last(runs).times + 1));
        slots[last] := Run(s.when, s.what, slots[last].times + 1);
        assert slots[..] == was[last := slots[last]];
      } else {
        ghost var was := slots[..];
        Push(was, runs, Run(s.when, Cut(s.what, WHAT), 1));
        slots[next] := Run(s.when, Cut(s.what, WHAT), 1);
        assert slots[..] == was[next := slots[next]];
        next := (next + 1) % SLOTS;
        if count < SLOTS { count := count + 1; }
      }
      history := history + [s];
    }

    /** The run `i` before the newest. */
    method RunBack(i: nat) returns (r: Run)
      requires Valid() && i < count
      ensures count == |Shown(history)| && r == Shown(history)[count - 1 - i]
    {
      hide Holds, Runs;
      ghost var runs := Runs(history);
      BackBy(|runs|, i);
      HeldAt(slots[..], runs, |runs| - 1 - i);
      r := slots[(next - 1 - i + SLOTS) % SLOTS];
    }

    lemma AllShown()
      requires Valid()
      ensures count == |Shown(history)| && Fits(Shown(history))
    {
      ShownFit(history);
    }

    /** The last runs, newest first: all of them always fit the reply. */
    method Reply() returns (text: string)
      requires Valid()
      ensures text == Listing(LastN(Runs(history), 8)) && |text| < 960
      ensures text == Listing(Shown(history))
    {
      hide Valid, LineOf, Listing, Shown, Fits;
      text := "";
      ghost var shown := Shown(history);
      AllShown();
      ShownIs(history);
      ListingEmpty();
      assert shown[..count] == shown;
      for i := 0 to count
        invariant text + Listing(shown[..count - i]) == Listing(shown) && |text| <= 111 * i
      {
        var r := RunBack(i);
        var line := LineOf(r);
        ReplyNext(shown, count - i, text, line);
        if |line| >= REPLY - |text| {
          assert false;
          break;
        }
        text := text + line;
      }
    }
  }

  lemma ShownIs(history: seq<Sound>)
    ensures Shown(history) == LastN(Runs(history), 8)
  {
  }

  lemma InitLast<T>(s: seq<T>)
    requires s != []
    ensures s == Init(s) + [Last(s)] && |Init(s)| == |s| - 1
  {
  }

  lemma Newest<T>(slots: seq<T>, history: seq<T>)
    requires Holds(slots, history) && |slots| == SLOTS
    ensures history != [] ==> slots[(|history| % SLOTS - 1 + SLOTS) % SLOTS] == Last(history)
    ensures history != [] ==> (|history| % SLOTS - 1 + SLOTS) % SLOTS == |Init(history)| % SLOTS
  {
    if history != [] {
      BackOne(|history|);
      assert history[|history| - 1] == Last(history);
    }
  }

  lemma HeldAt<T>(slots: seq<T>, history: seq<T>, i: nat)
    requires Holds(slots, history) && i < |history| <= i + |slots|
    ensures slots[i % |slots|] == history[i]
  {
    assert history[i] == history[i];
  }

  lemma ShownFit(history: seq<Sound>)
    requires forall i :: 0 <= i < |history| ==> |history[i].when| <= 15
    ensures Fits(Shown(history))
  {
    hide LineOf;
    RunsFit(history);
    SlotsSuffice(history);
    var runs, shown := Runs(history), Shown(history);
    forall i | 0 <= i < |shown|
      ensures |LineOf(shown[i])| <= 111
    {
      assert shown[i] == runs[|runs| - |shown| + i];
      assert shown[i] in runs;
      LineLength(shown[i]);
    }
  }
}
