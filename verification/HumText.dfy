/** The printed HUM line, and that reading it gives back what was printed. */
module HumText {
  import opened Arithmetic
  import opened Words
  import opened HumLine

  /** What one tick has to say; the volume in hundredths. */
  datatype Report = Report(steps: Steps, style: nat, volume: nat, error: bool, inbound: bool)

  /** A member as the crew's file gives it: a word of at most 15 characters, a priority from 0 to 5. */
  ghost predicate Named(m: Member) {
    m.id != "" && |m.id| <= ID_LENGTH && Plain(m.id) && m.priority <= 5
  }

  ghost predicate Fair(r: Report) {
    && r.style < |STYLES| && r.volume <= 400 && FairLevels(r.steps)
    && |r.steps.cores| <= MAX_CORES && (forall i :: 0 <= i < |r.steps.cores| ==> r.steps.cores[i] <= MAX_STEP)
    && |r.steps.crew| <= MAX_CREW && (forall i :: 0 <= i < |r.steps.crew| ==> Named(r.steps.crew[i]))
  }

  predicate FairLevels(s: Steps) {
    && s.stall <= MAX_STEP && s.net <= MAX_STEP && s.disk <= MAX_STEP && s.spawn <= MAX_STEP
    && s.sched <= MAX_STEP && s.cpuWait <= MAX_STEP && s.ioWait <= MAX_STEP
  }

  // ---- the text ----

  type Pair = (Key, string)

  function WordOf(f: Pair): string {
    NameOf(f.0) + "=" + f.1
  }

  function Fields(fs: seq<Pair>): string {
    if fs == [] then "" else " " + WordOf(fs[0]) + Fields(fs[1..])
  }

  function WordsOf(fs: seq<Pair>): seq<string> {
    if fs == [] then [] else [WordOf(fs[0])] + WordsOf(fs[1..])
  }

  function Bit(b: bool): nat {
    if b then 1 else 0
  }

  function Numbers(ns: seq<nat>): (ts: seq<string>)
    ensures |ts| == |ns| && forall i :: 0 <= i < |ns| ==> ts[i] == Digits(ns[i])
  {
    if ns == [] then [] else [Digits(ns[0])] + Numbers(ns[1..])
  }

  function MemberText(m: Member): string {
    m.id + ":" + [Letter(m.state)] + Digits(m.priority)
  }

  function Members(ms: seq<Member>): (ts: seq<string>)
    ensures |ts| == |ms| && forall i :: 0 <= i < |ms| ==> ts[i] == MemberText(ms[i])
  {
    if ms == [] then [] else [MemberText(ms[0])] + Members(ms[1..])
  }

  function StepsFields(r: Report): seq<Pair>
    requires r.style < |STYLES|
  {
    var s := r.steps;
    [(Style, STYLES[r.style]), (Volume, TwoPlaces(r.volume)), (Stall, Digits(s.stall)), (Net, Digits(s.net)),
     (Disk, Digits(s.disk)), (Error, Digits(Bit(r.error))), (Inbound, Digits(Bit(r.inbound))),
     (Spawn, Digits(s.spawn)), (Sched, Digits(s.sched)), (CpuWait, Digits(s.cpuWait)), (IoWait, Digits(s.ioWait)),
     (Cores, Commas(Numbers(s.cores)))]
  }

  function CrewFields(s: Steps): seq<Pair> {
    [(Talk, Digits(Bit(s.talk)))] + if s.crew == [] then [] else [(Crew, Commas(Members(s.crew)))]
  }

  function StepsText(r: Report): string
    requires r.style < |STYLES|
  {
    "HUM" + Fields(StepsFields(r))
  }

  function CrewText(s: Steps): string {
    Fields(CrewFields(s))
  }

  function Text(r: Report): string
    requires r.style < |STYLES|
  {
    StepsText(r) + CrewText(r.steps)
  }

  lemma Joined(x: string, y: string, z: string)
    ensures x + y + z == x + (y + z)
  {
  }

  lemma {:induction false} FieldsAppend(a: seq<Pair>, b: seq<Pair>)
    ensures Fields(a + b) == Fields(a) + Fields(b)
  {
    hide WordOf;
    if a == [] {
      assert a + b == b;
    } else {
      FieldsAppend(a[1..], b);
      assert (a + b)[1..] == a[1..] + b;
      Joined(" " + WordOf(a[0]), Fields(a[1..]), Fields(b));
    }
  }

  // ---- words and fields ----

  ghost predicate PlainFields(fs: seq<Pair>) {
    forall i :: 0 <= i < |fs| ==> Plain(fs[i].1)
  }

  /** The words of a printed line are its fields. */
  lemma {:induction false} TokensOfFields(w: string, fs: seq<Pair>)
    requires w != "" && Plain(w) && PlainFields(fs)
    ensures Tokens(w + Fields(fs)) == [w] + WordsOf(fs)
    decreases |fs|
  {
    hide WordOf, Tokens;
    TokensWord(w, Fields(fs));
    if fs == [] {
      NoTokens();
    } else {
      var next := WordOf(fs[0]);
      PlainWord(fs[0]);
      TokensBlank(' ', next + Fields(fs[1..]));
      assert Fields(fs) == [' '] + (next + Fields(fs[1..]));
      TokensOfFields(next, fs[1..]);
    }
  }

  lemma NoTokens()
    ensures Tokens("") == []
  {
  }

  lemma PlainWord(f: Pair)
    requires Plain(f.1)
    ensures WordOf(f) != "" && Plain(WordOf(f))
  {
    EveryKey(f.0);
  }

  lemma FieldInWord(f: Pair)
    ensures KeyIn(WordOf(f)) == Some(f.0) && ValueIn(WordOf(f)) == f.1
  {
    hide KeyOf;
    EveryKey(f.0);
    KeyNamed(f.0);
    var name := NameOf(f.0);
    FindIs(name, '=', f.1);
    assert WordOf(f) == name + ['='] + f.1;
    assert WordOf(f)[..|name|] == name && WordOf(f)[|name| + 1..] == f.1;
  }

  function RunFields(p: Parsed, fs: seq<Pair>): Parsed
    decreases |fs|
  {
    if fs == [] then p else RunFields(Set(p, fs[0].0, fs[0].1), fs[1..])
  }

  lemma {:induction false} RunWords(p: Parsed, fs: seq<Pair>)
    ensures Run(p, WordsOf(fs)) == RunFields(p, fs)
    decreases |fs|
  {
    hide Set, WordOf, KeyIn, ValueIn;
    if fs != [] {
      FieldInWord(fs[0]);
      assert WordsOf(fs)[1..] == WordsOf(fs[1..]);
      RunWords(Set(p, fs[0].0, fs[0].1), fs[1..]);
    }
  }

  // ---- values ----

  lemma StepRead(n: nat)
    requires n <= MAX_STEP
    ensures ClampStep(Atoi(Digits(n))) == n
  {
    AtoiDigits(n, "");
    assert Digits(n) + "" == Digits(n);
  }

  lemma BitRead(b: bool)
    ensures (Atoi(Digits(Bit(b))) > 0) == b
  {
    AtoiDigits(Bit(b), "");
    assert Digits(Bit(b)) + "" == Digits(Bit(b));
  }

  lemma StyleRead(i: nat)
    requires i < |STYLES|
    ensures StyleFrom(STYLES[i], 0) == i
  {
    var n := StyleFrom(STYLES[i], 0);
    if n != -1 {
      StyleNames(n, i);
    }
  }

  /** The text of a list splits where its first item ends. */
  lemma FirstItem(items: seq<string>)
    requires items != [] && ',' !in items[0]
    ensures var v := Commas(items);
      && Find(v, ',') == |items[0]|
      && |items[0]| <= |v| && v[..|items[0]|] == items[0]
      && (|items| == 1 ==> v == items[0])
      && (|items| > 1 ==> |items[0]| < |v| && v[|items[0]| + 1..] == Commas(items[1..]))
  {
    if |items| == 1 {
      FindNone(items[0], ',');
    } else {
      var rest := Commas(items[1..]);
      FindIs(items[0], ',', rest);
      assert Commas(items) == items[0] + [','] + rest;
    }
  }

  lemma NumbersNext(ns: seq<nat>)
    requires ns != []
    ensures Numbers(ns)[0] == Digits(ns[0]) && Numbers(ns)[1..] == Numbers(ns[1..])
  {
  }

  lemma NumberHead(n: nat, items: seq<string>)
    requires items != [] && items[0] == Digits(n)
    ensures Commas(items) != "" && Atoi(Commas(items)) == n && ',' !in items[0]
  {
    hide Digits;
    if |items| == 1 {
      AtoiDigits(n, "");
      assert items[0] + "" == Commas(items);
    } else {
      var rest := "," + Commas(items[1..]);
      AtoiDigits(n, rest);
      assert Commas(items) == Digits(n) + rest;
    }
  }

  lemma {:induction false} CoresRead(ns: seq<nat>, room: nat)
    requires |ns| <= room && forall i :: 0 <= i < |ns| ==> ns[i] <= MAX_STEP
    ensures CoresIn(Commas(Numbers(ns)), room) == ns
    decreases |ns|
  {
    hide Commas, Digits, Atoi;
    if ns == [] {
      NoItems();
    } else {
      var items := Numbers(ns);
      NumbersNext(ns);
      NumberHead(ns[0], items);
      FirstItem(items);
      CoresRead(ns[1..], room - 1);
      assert ns == [ns[0]] + ns[1..];
    }
  }

  lemma NoItems()
    ensures Commas([]) == ""
  {
  }

  // ---- the crew ----

  predicate Clean(id: string) {
    ':' !in id && ',' !in id
  }

  lemma MembersNext(ms: seq<Member>)
    requires ms != []
    ensures Members(ms)[0] == MemberText(ms[0]) && Members(ms)[1..] == Members(ms[1..])
  {
  }

  lemma PriorityDigit(m: Member)
    requires m.priority < 10
    ensures MemberText(m) == m.id + [':'] + ([Letter(m.state)] + [DigitOf(m.priority)])
    ensures Clean(m.id) ==> ',' !in MemberText(m)
  {
    assert Digits(m.priority) == [DigitOf(m.priority)];
  }

  lemma MemberHead(m: Member, v: string)
    requires Named(m) && Clean(m.id) && MemberText(m) <= v && Find(v, ',') == |MemberText(m)|
    ensures v != "" && FirstMember(v) == [m]
  {
    PriorityDigit(m);
    var n := |m.id|;
    var t := MemberText(m);
    assert v == m.id + [':'] + v[n + 1..];
    FindIs(m.id, ':', v[n + 1..]);
    assert v[n + 1] == t[n + 1] == Letter(m.state) && v[n + 2] == t[n + 2] == DigitOf(m.priority);
    assert v[..n] == m.id;
  }

  /** The head of a list and the rest of it. */
  lemma {:induction false} CrewSplit(v: string, room: nat)
    requires v != "" && 0 < room
    ensures CrewIn(v, room) == FirstMember(v) + CrewAfter(v, Find(v, ','), room - |FirstMember(v)|)
  {
    hide FirstMember, Find;
  }

  function CrewAfter(v: string, comma: nat, room: nat): seq<Member>
    requires comma <= |v|
  {
    if comma == |v| then [] else CrewIn(v[comma + 1..], room)
  }

  lemma {:induction false} NoCrewIn(v: string, room: nat)
    requires v == "" || room == 0
    ensures CrewIn(v, room) == []
  {
  }

  lemma {:induction false} CrewRead(ms: seq<Member>, room: nat)
    requires |ms| <= room && forall i :: 0 <= i < |ms| ==> Named(ms[i]) && Clean(ms[i].id)
    ensures CrewIn(Commas(Members(ms)), room) == ms
    decreases |ms|
  {
    hide Commas, MemberText, FirstMember, Clean, Members, Find, CrewIn;
    if ms == [] {
      NoItems();
      NoCrew();
    } else {
      var items := Members(ms);
      MembersNext(ms);
      PriorityDigit(ms[0]);
      FirstItem(items);
      var v := Commas(items);
      assert items[0] <= v by { assert v[..|items[0]|] == items[0]; }
      MemberHead(ms[0], v);
      CrewSplit(v, room);
      CrewRead(ms[1..], room - 1);
      NoCrew();
      assert ms == [ms[0]] + ms[1..];
    }
  }

  predicate WellRead(m: Member) {
    Clean(m.id) && 0 < |m.id| <= ID_LENGTH && m.priority < 10
  }

  /** Whatever text it reads, an id the reader takes is clean, not empty and short. */
  lemma {:induction false} EveryIdClean(v: string, room: nat)
    ensures forall m :: m in CrewIn(v, room) ==> WellRead(m)
    decreases |v|
  {
    hide FirstMember, WellRead, CrewIn;
    if v == "" || room == 0 {
      NoCrewIn(v, room);
    } else {
      CrewSplit(v, room);
      FirstIsClean(v);
      var first, comma := FirstMember(v), Find(v, ',');
      if comma < |v| {
        EveryIdClean(v[comma + 1..], room - |first|);
      }
    }
  }

  lemma FirstIsClean(v: string)
    ensures forall m :: m in FirstMember(v) ==> WellRead(m)
  {
  }

  lemma WellReadIsClean()
    ensures forall m {:trigger WellRead(m)} :: WellRead(m) ==> Clean(m.id)
  {
  }

  /** The crew comes back exactly when no id holds the list's own punctuation. */
  lemma CrewExactly(ms: seq<Member>)
    requires |ms| <= MAX_CREW && forall i :: 0 <= i < |ms| ==> Named(ms[i])
    ensures CrewIn(Commas(Members(ms)), MAX_CREW) == ms <==> forall i :: 0 <= i < |ms| ==> Clean(ms[i].id)
  {
    hide Clean, CrewIn, Commas, Members, WellRead;
    if forall i :: 0 <= i < |ms| ==> Clean(ms[i].id) {
      CrewRead(ms, MAX_CREW);
    } else {
      EveryIdClean(Commas(Members(ms)), MAX_CREW);
      WellReadIsClean();
      var i :| 0 <= i < |ms| && !Clean(ms[i].id);
      assert ms[i] in ms;
    }
  }

  // ---- the whole line ----

  function Heard(r: Report, crew: seq<Member>): Parsed {
    Parsed(r.steps.(crew := crew), r.style, r.volume as real / 100.0, r.error, r.inbound)
  }

  lemma StepsHeard(r: Report)
    requires Fair(r)
    ensures RunFields(Nothing, StepsFields(r)) == Heard(r, []).(steps := r.steps.(crew := [], talk := false))
  {
    hide RunFields, StepsFields, Set, Commas, Numbers, Digits, TwoPlaces, Bit;
    var s, fs := r.steps, StepsFields(r);
    FieldsInPlace(r);
    assert fs[0..] == fs && fs[12..] == [];
    FirstHeard(Nothing, r, fs);
    var p := Nothing.(style := r.style, volume := r.volume as real / 100.0);
    p := p.(steps := p.steps.(stall := s.stall, net := s.net));
    MiddleHeard(p, r, fs);
    p := p.(error := r.error, inbound := r.inbound, steps := p.steps.(disk := s.disk, spawn := s.spawn));
    LastHeard(p, r, fs);
    p := p.(steps := p.steps.(sched := s.sched, cpuWait := s.cpuWait, ioWait := s.ioWait));
    RunFrom(p, fs, 11);
    CoresHeard(p, s.cores);
    NoMore(p.(steps := p.steps.(cores := s.cores)));
  }

  lemma FieldsInPlace(r: Report)
    requires r.style < |STYLES|
    ensures var s, fs := r.steps, StepsFields(r);
      && |fs| == 12 && fs[0] == (Style, STYLES[r.style]) && fs[1] == (Volume, TwoPlaces(r.volume))
      && fs[2] == (Stall, Digits(s.stall)) && fs[3] == (Net, Digits(s.net)) && fs[4] == (Disk, Digits(s.disk))
      && fs[5] == (Error, Digits(Bit(r.error))) && fs[6] == (Inbound, Digits(Bit(r.inbound)))
      && fs[7] == (Spawn, Digits(s.spawn)) && fs[8] == (Sched, Digits(s.sched))
      && fs[9] == (CpuWait, Digits(s.cpuWait)) && fs[10] == (IoWait, Digits(s.ioWait))
      && fs[11] == (Cores, Commas(Numbers(s.cores)))
  {
    hide Digits, TwoPlaces, Commas, Numbers, Bit;
  }

  lemma FirstHeard(p: Parsed, r: Report, fs: seq<Pair>)
    requires Fair(r) && |fs| == 12
    requires fs[0] == (Style, STYLES[r.style]) && fs[1] == (Volume, TwoPlaces(r.volume))
    requires fs[2] == (Stall, Digits(r.steps.stall)) && fs[3] == (Net, Digits(r.steps.net))
    ensures RunFields(p, fs[0..]) == RunFields(
      p.(style := r.style, volume := r.volume as real / 100.0,
         steps := p.steps.(stall := r.steps.stall, net := r.steps.net)), fs[4..])
  {
    hide Atoi, Atof, Digits, TwoPlaces, ClampStep, StyleFrom, CoresIn, CrewIn, RunFields;
    var s, p := r.steps, p;
    StyleRead(r.style); RunFrom(p, fs, 0); p := p.(style := r.style);
    AtofTwoPlaces(r.volume); RunFrom(p, fs, 1); p := p.(volume := r.volume as real / 100.0);
    StepRead(s.stall); RunFrom(p, fs, 2); p := p.(steps := p.steps.(stall := s.stall));
    StepRead(s.net); RunFrom(p, fs, 3);
  }

  lemma MiddleHeard(p: Parsed, r: Report, fs: seq<Pair>)
    requires Fair(r) && |fs| == 12
    requires fs[4] == (Disk, Digits(r.steps.disk)) && fs[5] == (Error, Digits(Bit(r.error)))
    requires fs[6] == (Inbound, Digits(Bit(r.inbound))) && fs[7] == (Spawn, Digits(r.steps.spawn))
    ensures RunFields(p, fs[4..]) == RunFields(
      p.(error := r.error, inbound := r.inbound,
         steps := p.steps.(disk := r.steps.disk, spawn := r.steps.spawn)), fs[8..])
  {
    hide Atoi, Digits, ClampStep, CoresIn, CrewIn, RunFields, Bit;
    var s, p := r.steps, p;
    StepRead(s.disk); RunFrom(p, fs, 4); p := p.(steps := p.steps.(disk := s.disk));
    BitRead(r.error); RunFrom(p, fs, 5); p := p.(error := r.error);
    BitRead(r.inbound); RunFrom(p, fs, 6); p := p.(inbound := r.inbound);
    StepRead(s.spawn); RunFrom(p, fs, 7);
  }

  lemma LastHeard(p: Parsed, r: Report, fs: seq<Pair>)
    requires FairLevels(r.steps) && |fs| == 12
    requires fs[8] == (Sched, Digits(r.steps.sched)) && fs[9] == (CpuWait, Digits(r.steps.cpuWait))
    requires fs[10] == (IoWait, Digits(r.steps.ioWait))
    ensures RunFields(p, fs[8..]) == RunFields(
      p.(steps := p.steps.(sched := r.steps.sched, cpuWait := r.steps.cpuWait, ioWait := r.steps.ioWait)), fs[11..])
  {
    hide Atoi, Digits, ClampStep, CoresIn, CrewIn, RunFields;
    var s, p := r.steps, p;
    StepRead(s.sched); RunFrom(p, fs, 8); p := p.(steps := p.steps.(sched := s.sched));
    StepRead(s.cpuWait); RunFrom(p, fs, 9); p := p.(steps := p.steps.(cpuWait := s.cpuWait));
    StepRead(s.ioWait); RunFrom(p, fs, 10);
  }

  lemma CoresHeard(p: Parsed, ns: seq<nat>)
    requires p.steps.cores == [] && |ns| <= MAX_CORES && forall i :: 0 <= i < |ns| ==> ns[i] <= MAX_STEP
    ensures Set(p, Cores, Commas(Numbers(ns))) == p.(steps := p.steps.(cores := ns))
  {
    hide Commas, Numbers, CoresIn;
    CoresRead(ns, MAX_CORES);
    assert [] + ns == ns;
  }

  lemma NoMore(p: Parsed)
    ensures RunFields(p, []) == p
  {
  }

  /** One field of a list being read. */
  lemma RunFrom(p: Parsed, fs: seq<Pair>, i: nat)
    requires i < |fs|
    ensures RunFields(p, fs[i..]) == RunFields(Set(p, fs[i].0, fs[i].1), fs[i + 1..])
  {
  }

  lemma CrewHeard(p: Parsed, s: Steps)
    requires p.steps.crew == []
    ensures RunFields(p, CrewFields(s)) ==
      p.(steps := p.steps.(talk := s.talk, crew := CrewIn(Commas(Members(s.crew)), MAX_CREW)))
  {
    hide Atoi, Digits, CrewIn, Members, RunFields, Bit, Commas;
    var fs := CrewFields(s);
    BitRead(s.talk);
    RunFrom(p, fs, 0);
    assert fs[0..] == fs;
    var q := p.(steps := p.steps.(talk := s.talk));
    NoMore(q);
    if s.crew == [] {
      NoCrew();
      EmptyCrew();
    } else {
      RunFrom(q, fs, 1);
      var crew := CrewIn(Commas(Members(s.crew)), MAX_CREW);
      assert [] + crew == crew && fs[2..] == [];
      NoMore(q.(steps := q.steps.(crew := crew)));
    }
  }

  lemma EmptyCrew()
    ensures CrewIn(Commas(Members([])), MAX_CREW) == []
  {
    NoItems();
  }

  lemma NoCrew()
    ensures Members([]) == [] && forall room: nat :: CrewIn("", room) == []
  {
  }

  lemma {:induction false} RunFieldsAppend(p: Parsed, a: seq<Pair>, b: seq<Pair>)
    ensures RunFields(p, a + b) == RunFields(RunFields(p, a), b)
    decreases |a|
  {
    hide Set;
    if a == [] {
      assert a + b == b;
    } else {
      RunFieldsAppend(Set(p, a[0].0, a[0].1), a[1..], b);
      assert (a + b)[1..] == a[1..] + b;
    }
  }

  // ---- lengths ----

  lemma {:induction false} FieldsLength(fs: seq<Pair>, most: nat)
    requires forall i :: 0 <= i < |fs| ==> |fs[i].1| <= most
    ensures |Fields(fs)| <= |fs| * (most + 9)
    decreases |fs|
  {
    hide WordOf;
    if fs != [] {
      WordLengthOf(fs[0]);
      FieldsLength(fs[1..], most);
      assert |fs| * (most + 9) == (|fs| - 1) * (most + 9) + (most + 9);
    }
  }

  lemma WordLengthOf(f: Pair)
    ensures |WordOf(f)| <= |f.1| + 8
  {
    EveryKey(f.0);
  }

  lemma StepsLength(r: Report)
    requires Fair(r)
    ensures |StepsText(r)| <= 400
  {
    hide Digits, TwoPlaces, Commas, Numbers, Fields;
    var s, fs := r.steps, StepsFields(r);
    StyleNames(r.style, r.style);
    TwoPlacesLength(r.volume);
    BitLength(r.error); BitLength(r.inbound);
    DigitsLength(s.stall); DigitsLength(s.net); DigitsLength(s.disk); DigitsLength(s.spawn);
    DigitsLength(s.sched); DigitsLength(s.cpuWait); DigitsLength(s.ioWait);
    CoresLength(s.cores);
    FieldsLength(fs[..11], 8);
    FieldsLength(fs[11..], 48);
    FieldsAppend(fs[..11], fs[11..]);
    assert fs == fs[..11] + fs[11..];
  }

  lemma BitLength(b: bool)
    ensures |Digits(Bit(b))| == 1
  {
  }

  lemma TwoPlacesLength(v: nat)
    requires v <= 400
    ensures |TwoPlaces(v)| == 4
  {
  }

  lemma CoresLength(ns: seq<nat>)
    requires |ns| <= MAX_CORES && forall i :: 0 <= i < |ns| ==> ns[i] <= MAX_STEP
    ensures |Commas(Numbers(ns))| <= 48
  {
    hide Digits;
    forall i | 0 <= i < |ns|
      ensures |Numbers(ns)[i]| <= 2
    {
      DigitsLength(ns[i]);
    }
    CommasLength(Numbers(ns), 2);
  }

  lemma CrewLength(ms: seq<Member>)
    requires |ms| <= MAX_CREW && forall i :: 0 <= i < |ms| ==> Named(ms[i])
    ensures |Commas(Members(ms))| <= 152
  {
    forall i | 0 <= i < |ms|
      ensures |Members(ms)[i]| <= 18
    {
      PriorityDigit(ms[i]);
    }
    CommasLength(Members(ms), 18);
  }

  /** However much there is to say, the line fits its buffer with its terminator. */
  lemma LineFits(r: Report)
    requires Fair(r)
    ensures |Text(r)| <= LINE_LENGTH && |StepsText(r)| <= LINE_LENGTH
  {
    hide Digits, Commas, Members, Fields, StepsText, Bit;
    var s := r.steps;
    StepsLength(r);
    CrewLength(s.crew);
    BitLength(s.talk);
    FieldsLength(CrewFields(s), 152);
  }

  lemma PlainValues(r: Report)
    requires Fair(r)
    ensures PlainFields(StepsFields(r)) && PlainFields(CrewFields(r.steps))
  {
    hide Digits, Commas, Members, Numbers, MemberText, TwoPlaces;
    var s := r.steps;
    StyleNames(r.style, r.style);
    PlainTwoPlaces(r.volume);
    forall n: nat
      ensures Plain(Digits(n))
    {
      DigitsPlain(n);
    }
    CommasPlain(Numbers(s.cores));
    forall i | 0 <= i < |s.crew|
      ensures Plain(MemberText(s.crew[i]))
    {
      PlainMember(s.crew[i]);
    }
    CommasPlain(Members(s.crew));
  }

  lemma PlainTwoPlaces(v: nat)
    ensures Plain(TwoPlaces(v))
  {
  }

  lemma PlainMember(m: Member)
    requires Named(m)
    ensures Plain(MemberText(m))
  {
    PriorityDigit(m);
  }

  /** Reading a printed line gives back all of it, the crew as its own list reads. */
  lemma ReadsBack(r: Report)
    requires Fair(r)
    ensures Parse(Text(r)) == Heard(r, CrewIn(Commas(Members(r.steps.crew)), MAX_CREW))
  {
    hide Fields, StepsFields, CrewFields, Set, CrewIn, RunFields, Run, WordsOf, Commas, Members, Tokens;
    var a, b := StepsFields(r), CrewFields(r.steps);
    LineFits(r);
    FieldsAppend(a, b);
    assert Text(r) == "HUM" + Fields(a + b);
    PlainValues(r);
    TokensOfFields("HUM", a + b);
    RunHum(Nothing, WordsOf(a + b));
    RunWords(Nothing, a + b);
    RunFieldsAppend(Nothing, a, b);
    StepsHeard(r);
    CrewHeard(RunFields(Nothing, a), r.steps);
  }

  /** The line's first word sets nothing. */
  lemma RunHum(p: Parsed, words: seq<string>)
    ensures Run(p, ["HUM"] + words) == Run(p, words)
  {
    FindNone("HUM", '=');
    assert (["HUM"] + words)[1..] == words;
  }

  /** A line comes back whole exactly when no crew id holds a colon or a comma. */
  lemma RoundTripExactly(r: Report)
    requires Fair(r)
    ensures Parse(Text(r)) == Heard(r, r.steps.crew)
      <==> forall i :: 0 <= i < |r.steps.crew| ==> Clean(r.steps.crew[i].id)
  {
    hide Parse, Text, CrewIn, Commas, Members, Clean;
    ReadsBack(r);
    CrewExactly(r.steps.crew);
  }

  // ---- the line as it is on the wire ----

  /** The whole line, key after key. */
  lemma LineWritten(r: Report)
    requires r.style < |STYLES|
    ensures Text(r) ==
      "HUM style=" + STYLES[r.style] + " volume=" + TwoPlaces(r.volume)
      + " stall=" + Digits(r.steps.stall) + " net=" + Digits(r.steps.net) + " disk=" + Digits(r.steps.disk)
      + " error=" + (if r.error then "1" else "0") + " inbound=" + (if r.inbound then "1" else "0")
      + " spawn=" + Digits(r.steps.spawn) + " sched=" + Digits(r.steps.sched)
      + " cpuwait=" + Digits(r.steps.cpuWait) + " iowait=" + Digits(r.steps.ioWait)
      + " cores=" + Commas(Numbers(r.steps.cores))
      + " talk=" + (if r.steps.talk then "1" else "0")
      + (if r.steps.crew == [] then "" else " crew=" + Commas(Members(r.steps.crew)))
  {
    hide StepsText, CrewText, Commas, Numbers, Members, Digits, TwoPlaces;
    StepsWritten(r);
    CrewWritten(r.steps);
    Joined(StepsText(r), " talk=", if r.steps.talk then "1" else "0");
    Joined(StepsText(r), " talk=" + (if r.steps.talk then "1" else "0"),
           if r.steps.crew == [] then "" else " crew=" + Commas(Members(r.steps.crew)));
  }

  lemma BitWritten(b: bool)
    ensures Digits(Bit(b)) == if b then "1" else "0"
  {
  }

  lemma StepsWritten(r: Report)
    requires r.style < |STYLES|
    ensures StepsText(r) ==
      "HUM style=" + STYLES[r.style] + " volume=" + TwoPlaces(r.volume)
      + " stall=" + Digits(r.steps.stall) + " net=" + Digits(r.steps.net) + " disk=" + Digits(r.steps.disk)
      + " error=" + (if r.error then "1" else "0") + " inbound=" + (if r.inbound then "1" else "0")
      + " spawn=" + Digits(r.steps.spawn) + " sched=" + Digits(r.steps.sched)
      + " cpuwait=" + Digits(r.steps.cpuWait) + " iowait=" + Digits(r.steps.ioWait)
      + " cores=" + Commas(Numbers(r.steps.cores))
  {
    hide Fields, StepsFields, Commas, Numbers, Digits, TwoPlaces, Bit, Keyed;
    FieldsInPlace(r);
    BitWritten(r.error);
    BitWritten(r.inbound);
    KeysWritten();
    var fs := StepsFields(r);
    FirstField(fs);
    FieldNext(fs, 1); FieldNext(fs, 2); FieldNext(fs, 3); FieldNext(fs, 4); FieldNext(fs, 5); FieldNext(fs, 6);
    FieldNext(fs, 7); FieldNext(fs, 8); FieldNext(fs, 9); FieldNext(fs, 10); FieldNext(fs, 11);
    assert fs[..12] == fs;
  }

  /** What comes before a key's value. */
  function Keyed(k: Key): string {
    " " + NameOf(k) + "="
  }

  lemma KeysWritten()
    ensures "HUM" + Keyed(Style) == "HUM style=" && Keyed(Volume) == " volume=" && Keyed(Stall) == " stall="
    ensures Keyed(Net) == " net=" && Keyed(Disk) == " disk=" && Keyed(Error) == " error="
    ensures Keyed(Inbound) == " inbound=" && Keyed(Spawn) == " spawn=" && Keyed(Sched) == " sched="
    ensures Keyed(CpuWait) == " cpuwait=" && Keyed(IoWait) == " iowait=" && Keyed(Cores) == " cores="
    ensures Keyed(Talk) == " talk=" && Keyed(Crew) == " crew="
  {
  }

  lemma FieldNext(fs: seq<Pair>, i: nat)
    requires i < |fs|
    ensures "HUM" + Fields(fs[..i + 1]) == "HUM" + Fields(fs[..i]) + Keyed(fs[i].0) + fs[i].1
  {
    hide NameOf;
    assert fs[..i + 1] == fs[..i] + [fs[i]];
    FieldsAppend(fs[..i], [fs[i]]);
    assert [fs[i]][1..] == [];
  }

  lemma FirstField(fs: seq<Pair>)
    requires fs != []
    ensures "HUM" + Fields(fs[..1]) == "HUM" + Keyed(fs[0].0) + fs[0].1
  {
    hide NameOf;
    FieldNext(fs, 0);
  }

  lemma CrewWritten(s: Steps)
    ensures CrewText(s) == " talk=" + (if s.talk then "1" else "0")
      + (if s.crew == [] then "" else " crew=" + Commas(Members(s.crew)))
  {
    hide Members, Commas, Digits, Bit, NameOf, Keyed;
    BitWritten(s.talk);
    KeysWritten();
    var fs := CrewFields(s);
    CrewField(fs[0]);
    if s.crew == [] {
      assert fs == [fs[0]];
    } else {
      CrewField(fs[1]);
      FieldsAppend([fs[0]], [fs[1]]);
      assert fs == [fs[0]] + [fs[1]];
    }
  }

  lemma CrewField(f: Pair)
    ensures Fields([f]) == Keyed(f.0) + f.1
  {
    hide NameOf;
    assert [f][1..] == [];
  }

  /** A member: id, colon, the state's letter, the priority. */
  lemma MemberWritten(m: Member)
    ensures MemberText(m) ==
      m.id + ":" + (match m.state case Idle => "i" case Waiting => "h" case Working => "w" case Talking => "t")
      + Digits(m.priority)
  {
    hide Digits;
  }
}
