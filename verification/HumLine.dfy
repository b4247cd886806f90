/** The HUM line: what one program prints, ten times a second, and another reads. */
module HumLine {
  import opened Arithmetic
  import opened Words

  const MAX_CORES := 16
  const MAX_CREW := 8
  const MAX_STEP := 15
  const ID_LENGTH := 15
  const LINE_LENGTH := 1023
  const STYLES := ["uplink", "phreak", "hacker", "harmonic", "deep", "techno", "bytebeat"]

  datatype State = Idle | Waiting | Working | Talking

  datatype Member = Member(id: string, state: State, priority: nat)

  datatype Steps = Steps(stall: nat, net: nat, disk: nat, spawn: nat, sched: nat, cpuWait: nat, ioWait: nat,
                         cores: seq<nat>, talk: bool, crew: seq<Member>)

  const NoSteps := Steps(0, 0, 0, 0, 0, 0, 0, [], false, [])

  /** What one line says; a style of -1 or a negative volume is one the line does not set. */
  datatype Parsed = Parsed(steps: Steps, style: int, volume: real, error: bool, inbound: bool)

  const Nothing := Parsed(NoSteps, -1, -1.0, false, false)

  datatype Key = Style | Volume | Stall | Net | Disk | Error | Inbound | Spawn | Sched | CpuWait | IoWait
               | Talk | Crew | Cores

  datatype Maybe<T> = None | Some(value: T)

  function NameOf(k: Key): string {
    match k
    case Style => "style"
    case Volume => "volume"
    case Stall => "stall"
    case Net => "net"
    case Disk => "disk"
    case Error => "error"
    case Inbound => "inbound"
    case Spawn => "spawn"
    case Sched => "sched"
    case CpuWait => "cpuwait"
    case IoWait => "iowait"
    case Talk => "talk"
    case Crew => "crew"
    case Cores => "cores"
  }

  const KEYS: seq<Key> :=
    [Style, Volume, Stall, Net, Disk, Error, Inbound, Spawn, Sched, CpuWait, IoWait, Talk, Crew, Cores]

  /** Names are compared one after the other, the first that fits is taken. */
  function KeyFrom(name: string, i: nat): (k: Maybe<Key>)
    requires i <= |KEYS|
    ensures k.Some? ==> NameOf(k.value) == name
    ensures k.None? ==> forall j :: i <= j < |KEYS| ==> NameOf(KEYS[j]) != name
    decreases |KEYS| - i
  {
    if i == |KEYS| then None else if NameOf(KEYS[i]) == name then Some(KEYS[i]) else KeyFrom(name, i + 1)
  }

  function KeyOf(name: string): Maybe<Key> {
    KeyFrom(name, 0)
  }

  lemma EveryKey(k: Key)
    ensures KEYS[Place(k)] == k
    ensures '=' !in NameOf(k) && Plain(NameOf(k)) && 3 <= |NameOf(k)| <= 7
  {
    hide NameOf;
    NamePlain(k);
    NoEquals(k);
  }

  lemma NamePlain(k: Key)
    ensures Plain(NameOf(k)) && 3 <= |NameOf(k)| <= 7
  {
  }

  lemma NoEquals(k: Key)
    ensures '=' !in NameOf(k)
  {
  }

  function Place(k: Key): (i: nat)
    ensures i < |KEYS|
  {
    match k
    case Style => 0
    case Volume => 1
    case Stall => 2
    case Net => 3
    case Disk => 4
    case Error => 5
    case Inbound => 6
    case Spawn => 7
    case Sched => 8
    case CpuWait => 9
    case IoWait => 10
    case Talk => 11
    case Crew => 12
    case Cores => 13
  }

  /** No two keys share a name. */
  lemma NamesDiffer(j: Key, k: Key)
    requires NameOf(j) == NameOf(k)
    ensures j == k
  {
    var a, b := NameOf(j), NameOf(k);
    assert |a| == |b| && a[0] == b[0] && a[1] == b[1] && a[2] == b[2];
  }

  lemma KeyNamed(k: Key)
    ensures KeyOf(NameOf(k)) == Some(k)
  {
    EveryKey(k);
    var found := KeyOf(NameOf(k));
    assert found.Some?;
    NamesDiffer(found.value, k);
  }

  // ---- values ----

  function ClampStep(v: int): (step: nat)
    ensures step <= MAX_STEP && (0 <= v <= MAX_STEP ==> step == v)
  {
    if v < 0 then 0 else if v > 15 then 15 else v
  }

  function StyleFrom(name: string, i: nat): (n: int)
    requires i <= |STYLES|
    ensures n == -1 || (i <= n < |STYLES| && STYLES[n] == name)
    ensures n == -1 ==> forall j :: i <= j < |STYLES| ==> STYLES[j] != name
    decreases |STYLES| - i
  {
    if i == |STYLES| then -1 else if STYLES[i] == name then i else StyleFrom(name, i + 1)
  }

  lemma StyleNames(i: nat, j: nat)
    requires i < |STYLES| && j < |STYLES|
    ensures STYLES[i] == STYLES[j] ==> i == j
    ensures Plain(STYLES[i]) && 4 <= |STYLES[i]| <= 8
  {
    var a, b := STYLES[i], STYLES[j];
    if a == b {
      assert a[0] == b[0] && a[2] == b[2] && |a| == |b|;
    }
  }

  function CoresIn(v: string, room: nat): (cores: seq<nat>)
    ensures |cores| <= room && forall i :: 0 <= i < |cores| ==> cores[i] <= MAX_STEP
    decreases |v|
  {
    if v == "" || room == 0 then []
    else
      var comma := Find(v, ',');
      [ClampStep(Atoi(v))] + if comma == |v| then [] else CoresIn(v[comma + 1..], room - 1)
  }

  function StateOf(letter: char): State {
    match letter
    case 'w' => Working
    case 'h' => Waiting
    case 't' => Talking
    case _ => Idle
  }

  function Letter(s: State): (letter: char)
    ensures StateOf(letter) == s && letter != NUL && !Blank(letter)
  {
    match s
    case Idle => 'i'
    case Waiting => 'h'
    case Working => 'w'
    case Talking => 't'
  }

  /** One member from the text of the list on, the id before `colon`. */
  function Entry(v: string, colon: nat): Member
    requires colon < |v|
  {
    var digit := At(v, colon + 2);
    Member(Cut(v[..colon], ID_LENGTH), StateOf(At(v, colon + 1)),
           if At(v, colon + 1) != NUL && Digit(digit) then ValueOf(digit) else 0)
  }

  /** The member at the head of the list, if a colon makes one of it. */
  function FirstMember(v: string): (ms: seq<Member>)
    ensures |ms| <= 1
  {
    var colon, comma := Find(v, ':'), Find(v, ',');
    if 0 < colon < comma then [Entry(v, colon)] else []
  }

  function CrewIn(v: string, room: nat): (crew: seq<Member>)
    ensures |crew| <= room
    decreases |v|
  {
    if v == "" || room == 0 then []
    else
      var first, comma := FirstMember(v), Find(v, ',');
      first + if comma == |v| then [] else CrewIn(v[comma + 1..], room - |first|)
  }

  /** What one `key=value` does. */
  function Set(p: Parsed, k: Key, v: string): Parsed {
    match k
    case Style => p.(style := StyleFrom(v, 0))
    case Volume => p.(volume := Atof(v))
    case Stall => p.(steps := p.steps.(stall := ClampStep(Atoi(v))))
    case Net => p.(steps := p.steps.(net := ClampStep(Atoi(v))))
    case Disk => p.(steps := p.steps.(disk := ClampStep(Atoi(v))))
    case Error => p.(error := Atoi(v) > 0)
    case Inbound => p.(inbound := Atoi(v) > 0)
    case Spawn => p.(steps := p.steps.(spawn := ClampStep(Atoi(v))))
    case Sched => p.(steps := p.steps.(sched := ClampStep(Atoi(v))))
    case CpuWait => p.(steps := p.steps.(cpuWait := ClampStep(Atoi(v))))
    case IoWait => p.(steps := p.steps.(ioWait := ClampStep(Atoi(v))))
    case Talk => p.(steps := p.steps.(talk := Atoi(v) > 0))
    case Crew => p.(steps := p.steps.(crew := p.steps.crew + CrewIn(v, Room(MAX_CREW, |p.steps.crew|))))
    case Cores => p.(steps := p.steps.(cores := p.steps.cores + CoresIn(v, Room(MAX_CORES, |p.steps.cores|))))
  }

  function Room(most: nat, used: nat): nat {
    if used < most then most - used else 0
  }

  /** The key a word sets: the text before its first `=`, if that is a name the reader knows. */
  function KeyIn(word: string): Maybe<Key> {
    var eq := Find(word, '=');
    if eq == |word| then None else KeyOf(word[..eq])
  }

  function ValueIn(word: string): string {
    var eq := Find(word, '=');
    if eq == |word| then "" else word[eq + 1..]
  }

  function Apply(p: Parsed, word: string): Parsed {
    var k := KeyIn(word);
    if k.None? then p else Set(p, k.value, ValueIn(word))
  }

  function Run(p: Parsed, words: seq<string>): Parsed
    decreases |words|
  {
    if words == [] then p else Run(Apply(p, words[0]), words[1..])
  }

  /** What a line says: the reader's buffer holds its first 1023 characters. */
  function Parse(line: string): Parsed {
    Run(Nothing, Tokens(Cut(line, LINE_LENGTH)))
  }

  lemma {:induction false} RunAppend(p: Parsed, a: seq<string>, b: seq<string>)
    ensures Run(p, a + b) == Run(Run(p, a), b)
    decreases |a|
  {
    hide Apply;
    if a == [] {
      assert a + b == b;
    } else {
      RunAppend(Apply(p, a[0]), a[1..], b);
      assert (a + b)[1..] == a[1..] + b;
    }
  }

  // ---- either side can be older than the other ----

  /** Only the words whose key the reader knows. */
  function Known(words: seq<string>): seq<string> {
    if words == [] then []
    else (if KeyIn(words[0]).None? then [] else [words[0]]) + Known(words[1..])
  }

  /** Unknown keys are passed over, wherever they stand. */
  lemma {:induction false} UnknownKeysPassedOver(p: Parsed, words: seq<string>)
    ensures Run(p, Known(words)) == Run(p, words)
    decreases |words|
  {
    hide Set, KeyIn, ValueIn;
    if words != [] {
      UnknownKeysPassedOver(Apply(p, words[0]), words[1..]);
      if KeyIn(words[0]).Some? {
        assert Known(words)[1..] == Known(words[1..]);
      } else {
        assert Known(words) == Known(words[1..]);
      }
    }
  }

  ghost predicate DistinctKeys(words: seq<string>) {
    forall i, j :: 0 <= i < j < |words| && KeyIn(words[i]).Some? ==> KeyIn(words[j]) != KeyIn(words[i])
  }

  ghost predicate OneEach(words: set<string>) {
    forall a, b :: a in words && b in words && KeyIn(a).Some? && KeyIn(a) == KeyIn(b) ==> a == b
  }

  ghost function Bag(words: seq<string>): set<string> {
    set w | w in words
  }

  lemma DistinctOneEach(words: seq<string>)
    requires DistinctKeys(words)
    ensures OneEach(Bag(words))
  {
  }

  /** The values a set of words gives to keys, with no order among them. */
  ghost function Values(words: set<string>): map<Key, string>
    requires OneEach(words)
  {
    map w | w in words && KeyIn(w).Some? :: KeyIn(w).value := ValueIn(w)
  }

  function Level(m: map<Key, string>, k: Key): nat {
    if k in m then ClampStep(Atoi(m[k])) else 0
  }

  function Flag(m: map<Key, string>, k: Key): bool {
    k in m && Atoi(m[k]) > 0
  }

  /** What those values say, key by key: a missing level is 0. */
  function Meaning(m: map<Key, string>): Parsed {
    Parsed(Steps(Level(m, Stall), Level(m, Net), Level(m, Disk), Level(m, Spawn), Level(m, Sched),
                 Level(m, CpuWait), Level(m, IoWait),
                 if Cores in m then CoresIn(m[Cores], MAX_CORES) else [],
                 Flag(m, Talk),
                 if Crew in m then CrewIn(m[Crew], MAX_CREW) else []),
           if Style in m then StyleFrom(m[Style], 0) else -1,
           if Volume in m then Atof(m[Volume]) else -1.0,
           Flag(m, Error), Flag(m, Inbound))
  }

  lemma MeaningNext(m: map<Key, string>, k: Key, v: string)
    requires k !in m
    ensures Meaning(m[k := v]) == Set(Meaning(m), k, v)
  {
    hide Set, Meaning;
    StepsNext(m, k, v);
    OthersNext(m, k, v);
  }

  lemma StepsNext(m: map<Key, string>, k: Key, v: string)
    requires k !in m
    ensures Meaning(m[k := v]).steps == Set(Meaning(m), k, v).steps
  {
    hide CoresIn, CrewIn, Atoi, Atof, ClampStep, StyleFrom, Level;
    assert forall j :: Level(m[k := v], j) == if j == k then ClampStep(Atoi(v)) else Level(m, j) by {
      LevelsNext(m, k, v);
    }
    assert [] + CrewIn(v, MAX_CREW) == CrewIn(v, MAX_CREW);
    assert [] + CoresIn(v, MAX_CORES) == CoresIn(v, MAX_CORES);
  }

  lemma LevelsNext(m: map<Key, string>, k: Key, v: string)
    ensures forall j {:trigger Level(m[k := v], j)} ::
      Level(m[k := v], j) == if j == k then ClampStep(Atoi(v)) else Level(m, j)
  {
    hide Atoi, ClampStep;
    forall j: Key
      ensures Level(m[k := v], j) == if j == k then ClampStep(Atoi(v)) else Level(m, j)
    {
      assert j in m[k := v] <==> j == k || j in m;
    }
  }

  lemma OthersNext(m: map<Key, string>, k: Key, v: string)
    requires k !in m
    ensures var p, q := Meaning(m[k := v]), Set(Meaning(m), k, v);
      p.style == q.style && p.volume == q.volume && p.error == q.error && p.inbound == q.inbound
  {
    hide CoresIn, CrewIn, Atoi, Atof, ClampStep, StyleFrom, Level;
  }

  /** With each key once, the line means its values, whatever order they come in. */
  lemma {:induction false} RunIsMeaning(words: seq<string>)
    requires DistinctKeys(words)
    ensures OneEach(Bag(words)) && Run(Nothing, words) == Meaning(Values(Bag(words)))
  {
    hide Set, KeyIn, ValueIn, Meaning;
    DistinctOneEach(words);
    if words == [] {
      MeaningOfNothing();
      assert Values(Bag(words)) == map[];
    } else {
      var n := |words| - 1;
      var init, w := words[..n], words[n];
      assert words == init + [w];
      RunIsMeaning(init);
      RunAppend(Nothing, init, [w]);
      var p := Run(Nothing, init);
      assert Run(p, [w]) == Apply(p, w) by { assert [w][1..] == []; }
      BagNext(init, w);
      if KeyIn(w).Some? {
        MeaningNext(Values(Bag(init)), KeyIn(w).value, ValueIn(w));
      }
    }
  }

  lemma MeaningOfNothing()
    ensures Meaning(map[]) == Nothing
  {
  }

  lemma BagNext(init: seq<string>, w: string)
    requires DistinctKeys(init + [w])
    ensures OneEach(Bag(init)) && OneEach(Bag(init + [w]))
    ensures KeyIn(w).None? ==> Values(Bag(init + [w])) == Values(Bag(init))
    ensures KeyIn(w).Some? ==> KeyIn(w).value !in Values(Bag(init))
    ensures KeyIn(w).Some? ==> Values(Bag(init + [w])) == Values(Bag(init))[KeyIn(w).value := ValueIn(w)]
  {
    hide KeyIn, ValueIn, DistinctKeys, OneEach;
    FirstDistinct(init, w);
    DistinctOneEach(init + [w]);
    DistinctOneEach(init);
    BagOf(init, w);
    ValuesNext(Bag(init), w);
  }

  lemma FirstDistinct(init: seq<string>, w: string)
    requires DistinctKeys(init + [w])
    ensures DistinctKeys(init)
    ensures KeyIn(w).Some? ==> forall a :: a in Bag(init) ==> KeyIn(a) != KeyIn(w)
  {
    hide KeyIn;
    var words := init + [w];
    assert words[|init|] == w;
    assert forall i :: 0 <= i < |init| ==> words[i] == init[i];
  }

  lemma BagOf(init: seq<string>, w: string)
    ensures Bag(init + [w]) == Bag(init) + {w}
  {
  }

  lemma ValuesNext(words: set<string>, w: string)
    requires OneEach(words) && OneEach(words + {w})
    requires KeyIn(w).Some? ==> forall a :: a in words ==> KeyIn(a) != KeyIn(w)
    ensures KeyIn(w).None? ==> Values(words + {w}) == Values(words)
    ensures KeyIn(w).Some? ==> KeyIn(w).value !in Values(words)
    ensures KeyIn(w).Some? ==> Values(words + {w}) == Values(words)[KeyIn(w).value := ValueIn(w)]
  {
    hide KeyIn, ValueIn;
  }

  /** Two lines with the same words in any order say the same. */
  lemma OrderDoesNotMatter(a: seq<string>, b: seq<string>)
    requires DistinctKeys(a) && DistinctKeys(b) && Bag(a) == Bag(b)
    ensures Run(Nothing, a) == Run(Nothing, b)
  {
    RunIsMeaning(a);
    RunIsMeaning(b);
  }

  /** Distinct keys stay distinct however the words are permuted. */
  lemma PermutedDistinct(a: seq<string>, b: seq<string>)
    requires DistinctKeys(a) && multiset(a) == multiset(b)
    ensures DistinctKeys(b) && Bag(a) == Bag(b)
  {
    hide KeyIn;
    assert forall w :: w in a <==> w in multiset(a);
    assert forall w :: w in b <==> w in multiset(b);
    forall i, j | 0 <= i < j < |b| && KeyIn(b[i]).Some?
      ensures KeyIn(b[j]) != KeyIn(b[i])
    {
      if KeyIn(b[j]) == KeyIn(b[i]) {
        DistinctOneEach(a);
        assert b[i] in Bag(a) && b[j] in Bag(a);
        TwiceIn(b, i, j);
        OnceIn(a, b[i]);
        assert false;
      }
    }
  }

  lemma TwiceIn(b: seq<string>, i: nat, j: nat)
    requires i < j < |b| && b[i] == b[j]
    ensures 2 <= multiset(b)[b[i]]
  {
    assert b == b[..j] + [b[j]] + b[j + 1..];
    assert b[..j][i] == b[i];
    assert b[i] in multiset(b[..j]);
  }

  lemma {:induction false} OnceIn(a: seq<string>, w: string)
    requires DistinctKeys(a) && KeyIn(w).Some?
    ensures multiset(a)[w] <= 1
  {
    hide KeyIn;
    if a != [] {
      var n := |a| - 1;
      assert a == a[..n] + [a[n]];
      OnceIn(a[..n], w);
    }
  }

  /** So whole lines can be reordered at will. */
  lemma LinesPermute(a: string, b: string)
    requires |a| <= LINE_LENGTH && |b| <= LINE_LENGTH
    requires DistinctKeys(Tokens(a)) && multiset(Tokens(a)) == multiset(Tokens(b))
    ensures Parse(a) == Parse(b)
  {
    PermutedDistinct(Tokens(a), Tokens(b));
    OrderDoesNotMatter(Tokens(a), Tokens(b));
  }

  /** The same with one key's field as a line without that key leaves it. */
  function Cleared(p: Parsed, k: Key): Parsed {
    match k
    case Style => p.(style := -1)
    case Volume => p.(volume := -1.0)
    case Stall => p.(steps := p.steps.(stall := 0))
    case Net => p.(steps := p.steps.(net := 0))
    case Disk => p.(steps := p.steps.(disk := 0))
    case Error => p.(error := false)
    case Inbound => p.(inbound := false)
    case Spawn => p.(steps := p.steps.(spawn := 0))
    case Sched => p.(steps := p.steps.(sched := 0))
    case CpuWait => p.(steps := p.steps.(cpuWait := 0))
    case IoWait => p.(steps := p.steps.(ioWait := 0))
    case Talk => p.(steps := p.steps.(talk := false))
    case Crew => p.(steps := p.steps.(crew := []))
    case Cores => p.(steps := p.steps.(cores := []))
  }

  lemma LevelsWithout(m: map<Key, string>, k: Key)
    ensures forall j :: Level(m - {k}, j) == if j == k then 0 else Level(m, j)
    ensures forall j :: Flag(m - {k}, j) == (j != k && Flag(m, j))
  {
    hide Atoi, ClampStep;
  }

  lemma MeaningWithout(m: map<Key, string>, k: Key)
    ensures Meaning(m - {k}) == Cleared(Meaning(m), k)
  {
    hide Meaning, Cleared;
    StepsWithout(m, k);
    OthersWithout(m, k);
  }

  lemma StepsWithout(m: map<Key, string>, k: Key)
    ensures Meaning(m - {k}).steps == Cleared(Meaning(m), k).steps
  {
    hide Meaning;
    LevelsLeft(m, k);
    FieldsLeft(m, k);
  }

  lemma LevelsLeft(m: map<Key, string>, k: Key)
    ensures var p, q := Meaning(m - {k}).steps, Meaning(m).steps;
      && p.stall == (if k == Stall then 0 else q.stall) && p.net == (if k == Net then 0 else q.net)
      && p.disk == (if k == Disk then 0 else q.disk) && p.spawn == (if k == Spawn then 0 else q.spawn)
      && p.sched == (if k == Sched then 0 else q.sched) && p.cpuWait == (if k == CpuWait then 0 else q.cpuWait)
      && p.ioWait == (if k == IoWait then 0 else q.ioWait)
  {
    hide CoresIn, CrewIn, Atof, StyleFrom, Level, Flag;
    LevelsWithout(m, k);
  }

  /** The fields that are not levels. */
  lemma FieldsLeft(m: map<Key, string>, k: Key)
    ensures var p, q := Meaning(m - {k}).steps, Meaning(m).steps;
      && p.cores == (if k == Cores then [] else q.cores) && p.crew == (if k == Crew then [] else q.crew)
      && p.talk == (k != Talk && q.talk)
  {
    hide CoresIn, CrewIn, Atof, StyleFrom, Level, Atoi;
  }

  lemma OthersWithout(m: map<Key, string>, k: Key)
    ensures var p, q := Meaning(m - {k}), Cleared(Meaning(m), k);
      p.style == q.style && p.volume == q.volume && p.error == q.error && p.inbound == q.inbound
  {
    hide CoresIn, CrewIn, Atof, StyleFrom, Level, Flag;
    LevelsWithout(m, k);
  }

  /** A key left out zeroes its own field and nothing else. */
  lemma MissingKeyIsZero(before: seq<string>, word: string, after: seq<string>)
    requires DistinctKeys(before + [word] + after) && KeyIn(word).Some?
    ensures Run(Nothing, before + after) == Cleared(Run(Nothing, before + [word] + after), KeyIn(word).value)
  {
    hide KeyIn, ValueIn, Run, Meaning, Cleared;
    var all, rest := before + [word] + after, before + after;
    LeftOutDistinct(before, word, after);
    RunIsMeaning(all);
    RunIsMeaning(rest);
    MeaningWithout(Values(Bag(all)), KeyIn(word).value);
    OtherKeys(before, word, after);
    ValuesWithout(Bag(rest), word);
  }

  lemma OtherKeys(before: seq<string>, word: string, after: seq<string>)
    requires DistinctKeys(before + [word] + after) && KeyIn(word).Some?
    ensures Bag(before + [word] + after) == Bag(before + after) + {word}
    ensures forall w :: w in Bag(before + after) ==> KeyIn(w) != KeyIn(word)
  {
    hide KeyIn;
    var all, rest := before + [word] + after, before + after;
    forall w | w in rest
      ensures KeyIn(w) != KeyIn(word)
    {
      var i :| 0 <= i < |rest| && rest[i] == w;
      if i < |before| {
        assert all[i] == w && all[|before|] == word;
      } else {
        assert all[i + 1] == w && all[|before|] == word;
      }
    }
  }

  lemma ValuesWithout(words: set<string>, w: string)
    requires OneEach(words) && OneEach(words + {w}) && KeyIn(w).Some?
    requires forall a :: a in words ==> KeyIn(a) != KeyIn(w)
    ensures Values(words) == Values(words + {w}) - {KeyIn(w).value}
  {
    hide KeyIn, ValueIn;
  }

  lemma LeftOutDistinct(before: seq<string>, word: string, after: seq<string>)
    requires DistinctKeys(before + [word] + after)
    ensures DistinctKeys(before + after)
  {
    hide KeyIn;
    var all, rest := before + [word] + after, before + after;
    forall i, j | 0 <= i < j < |rest| && KeyIn(rest[i]).Some?
      ensures KeyIn(rest[j]) != KeyIn(rest[i])
    {
      var a, b := if i < |before| then i else i + 1, if j < |before| then j else j + 1;
      assert all[a] == rest[i] && all[b] == rest[j];
    }
  }
}
