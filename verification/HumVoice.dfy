/** The two programs at work: one prints the line into its buffer, the other reads it into what the voice plays. */
module HumVoice {
  import opened Arithmetic
  import opened Words
  import opened HumLine
  import opened HumText

  // ---- the printer ----

  /** C's `snprintf` at `at`: as much of the text as fits with its terminator, and the whole text's length. */
  method Snprintf(buf: array<char>, at: nat, text: string) returns (n: nat)
    requires at <= buf.Length
    modifies buf
    ensures n == |text| && buf[..at] == old(buf[..at])
    ensures at < buf.Length ==> var k := Min(n, buf.Length - 1 - at); buf[at..at + k] == text[..k] && buf[at + k] == NUL
  {
    n := |text|;
    if at < buf.Length {
      var k := Min(n, buf.Length - 1 - at);
      for i := 0 to k
        invariant buf[..at] == old(buf[..at])
        invariant buf[at..at + i] == text[..i]
      {
        buf[at + i] := text[i];
      }
      buf[at + k] := NUL;
    }
  }

  /** What a buffer holds up to `n`, terminated there. */
  ghost predicate HoldsText(buf: array<char>, text: string)
    reads buf
  {
    |text| < buf.Length && buf[..|text|] == text && buf[|text|] == NUL
  }

  /** More text after what is there: either all of it fits, or the count passes the buffer's end. */
  method Print(buf: array<char>, ghost so: string, at: nat, text: string) returns (n: nat)
    requires at == |so| && HoldsText(buf, so)
    modifies buf
    ensures n == |so + text|
    ensures n < buf.Length ==> HoldsText(buf, so + text)
  {
    var k := Snprintf(buf, at, text);
    n := at + k;
    if n < buf.Length {
      assert buf[..n] == buf[..at] + buf[at..n];
    }
  }

  lemma ItemNext(items: seq<string>, i: nat, so: string)
    requires i < |items|
    ensures so + Commas(items[..i]) + ((if i > 0 then "," else "") + items[i]) == so + Commas(items[..i + 1])
  {
    hide Commas;
    CommasNext(items[..i], items[i]);
    NoItems();
    assert items[..i] + [items[i]] == items[..i + 1];
  }

  /** Items with commas between, one `snprintf` each, until the buffer is full. */
  method PrintList(items: seq<string>, buf: array<char>, ghost so: string, start: nat) returns (n: nat)
    requires start < buf.Length ==> start == |so| && HoldsText(buf, so)
    requires start >= buf.Length ==> |so| >= buf.Length
    modifies buf
    ensures n < buf.Length <==> |so + Commas(items)| < buf.Length
    ensures n < buf.Length ==> n == |so + Commas(items)| && HoldsText(buf, so + Commas(items))
  {
    hide Commas;
    n := start;
    var i := 0;
    NoItems();
    assert so + Commas(items[..0]) == so;
    while i < |items| && n < buf.Length
      invariant i <= |items|
      invariant n >= buf.Length ==> |so + Commas(items[..i])| >= buf.Length
      invariant n < buf.Length ==> n == |so + Commas(items[..i])| && HoldsText(buf, so + Commas(items[..i]))
    {
      var piece := (if i > 0 then "," else "") + items[i];
      ItemNext(items, i, so);
      n := Print(buf, so + Commas(items[..i]), n, piece);
      i := i + 1;
    }
    CommasGrow(items, i);
    assert items[..|items|] == items;
  }

  /** The levels' part of the line; -1 when the buffer is too short for it. */
  method StepsLine(r: Report, buf: array<char>) returns (n: int)
    requires r.style < |STYLES|
    modifies buf
    ensures n == if |StepsText(r)| < buf.Length then |StepsText(r)| else -1
    ensures n >= 0 ==> HoldsText(buf, StepsText(r))
  {
    hide Fields, Numbers, Commas, Digits;
    var text := "HUM" + Fields(StepsFields(r)[..11]) + " cores=";
    StepsTextIs(r);
    n := Snprintf(buf, 0, text);
    assert n < buf.Length ==> buf[..n] == text;
    n := PrintList(Numbers(r.steps.cores), buf, text, n);
    if n >= buf.Length { n := -1; }
  }

  lemma StepsTextIs(r: Report)
    requires r.style < |STYLES|
    ensures StepsText(r) == "HUM" + Fields(StepsFields(r)[..11]) + " cores=" + Commas(Numbers(r.steps.cores))
  {
    hide Numbers, Commas, Digits, TwoPlaces, Bit, Fields, StepsFields;
    var fs := StepsFields(r);
    FieldsInPlace(r);
    assert fs == fs[..11] + [fs[11]];
    FieldsAppend(fs[..11], [fs[11]]);
    OneField(fs[11]);
  }

  lemma OneField(f: Pair)
    ensures Fields([f]) == " " + NameOf(f.0) + "=" + f.1
  {
    assert [f][1..] == [];
  }

  /** A longer list prints longer. */
  lemma {:induction false} CommasGrow(items: seq<string>, i: nat)
    requires i <= |items|
    ensures |Commas(items[..i])| <= |Commas(items)|
    decreases |items|
  {
    if i < |items| {
      var n := |items| - 1;
      assert items == items[..n] + [items[n]] && items[..n][..i] == items[..i];
      CommasNext(items[..n], items[n]);
      CommasGrow(items[..n], i);
    } else {
      assert items[..i] == items;
    }
  }

  /** The crew's part, after the text `so`; -1 when the rest of the buffer is too short. */
  method CrewKeys(s: Steps, buf: array<char>, ghost so: string, start: nat) returns (n: int)
    requires start == |so| && HoldsText(buf, so)
    modifies buf
    ensures n == if |so + CrewText(s)| < buf.Length then |CrewText(s)| else -1
    ensures n >= 0 ==> HoldsText(buf, so + CrewText(s))
  {
    hide Members, Commas, Digits, Fields;
    ghost var text := so + " talk=" + Digits(Bit(s.talk));
    CrewTextIs(s);
    var at := Print(buf, so, start, " talk=" + Digits(Bit(s.talk)));
    assert so + (" talk=" + Digits(Bit(s.talk))) == text;
    if s.crew != [] {
      if at < buf.Length {
        at := Print(buf, text, at, " crew=");
      }
      ghost var keyed := text + " crew=";
      at := PrintList(Members(s.crew), buf, keyed, at);
      assert keyed + Commas(Members(s.crew)) == so + CrewText(s);
    } else {
      assert text == so + CrewText(s);
    }
    n := if at < buf.Length then at - start else -1;
  }

  lemma CrewTextIs(s: Steps)
    ensures CrewText(s) == " talk=" + Digits(Bit(s.talk)) +
      if s.crew == [] then "" else " crew=" + Commas(Members(s.crew))
  {
    hide Members, Commas, Digits, Bit;
    var fs := CrewFields(s);
    OneField(fs[0]);
    if s.crew == [] {
      assert fs == [fs[0]];
    } else {
      assert fs == [fs[0]] + [fs[1]];
      FieldsAppend([fs[0]], [fs[1]]);
      OneField(fs[1]);
    }
  }

  /** One tick of the sender: the line it has for the reader, or none when it did not fit. */
  method Compose(r: Report) returns (line: Maybe<string>)
    requires r.style < |STYLES|
    ensures
      var text :=
        "HUM style=" + STYLES[r.style] + " volume=" + TwoPlaces(r.volume)
        + " stall=" + Digits(r.steps.stall) + " net=" + Digits(r.steps.net) + " disk=" + Digits(r.steps.disk)
        + " error=" + (if r.error then "1" else "0") + " inbound=" + (if r.inbound then "1" else "0")
        + " spawn=" + Digits(r.steps.spawn) + " sched=" + Digits(r.steps.sched)
        + " cpuwait=" + Digits(r.steps.cpuWait) + " iowait=" + Digits(r.steps.ioWait)
        + " cores=" + Commas(Numbers(r.steps.cores))
        + " talk=" + (if r.steps.talk then "1" else "0")
        + (if r.steps.crew == [] then "" else " crew=" + Commas(Members(r.steps.crew)));
      line == if |text| <= 1023 then Some(text) else None
    ensures line == if |Text(r)| <= LINE_LENGTH then Some(Text(r)) else None
  {
    hide Fields, StepsFields, CrewFields, Digits, TwoPlaces, Commas, Numbers, Members;
    LineWritten(r);
    var buf := new char[1024];
    var n := StepsLine(r, buf);
    line := None;
    if n > 0 {
      var m := CrewKeys(r.steps, buf, StepsText(r), n);
      if m >= 0 {
        assert n + m == |Text(r)|;
        line := Some(buf[..n + m]);
      }
    }
  }

  // ---- the reader ----

  /** Where a list goes on after the item at `p`: past its comma, or at the end of the text. */
  function NextItem(v: string, p: nat): (q: nat)
    requires p < |v|
    ensures p < q <= |v|
  {
    Min(p + Find(v[p..], ',') + 1, |v|)
  }

  lemma CoresNext(v: string, p: nat, room: nat)
    requires p < |v| && 0 < room
    ensures CoresIn(v[p..], room) == [ClampStep(Atoi(v[p..]))] + CoresIn(v[NextItem(v, p)..], room - 1)
  {
    hide Atoi;
    var rest := v[p..];
    var comma := Find(rest, ',');
    if comma < |rest| {
      assert rest[comma + 1..] == v[NextItem(v, p)..];
    }
  }

  lemma CrewNext(v: string, p: nat, room: nat)
    requires p < |v| && 0 < room
    ensures CrewIn(v[p..], room) == FirstMember(v[p..]) + CrewIn(v[NextItem(v, p)..], room - |FirstMember(v[p..])|)
  {
    hide FirstMember;
    var rest := v[p..];
    var comma := Find(rest, ',');
    if comma < |rest| {
      assert rest[comma + 1..] == v[NextItem(v, p)..];
    }
  }

  lemma NothingLeft(v: string, p: nat, room: nat)
    requires p <= |v| && (p < |v| ==> room == 0)
    ensures CoresIn(v[p..], room) == [] && CrewIn(v[p..], room) == []
  {
  }

  /** The numbers of a `cores=` value, taken from the front until the voices run out. */
  method ReadCores(v: string, had: seq<nat>) returns (cores: seq<nat>)
    requires |had| <= MAX_CORES
    ensures cores == had + CoresIn(v, MAX_CORES - |had|)
  {
    hide Atoi, CoresIn, NextItem;
    cores := had;
    var p := 0;
    assert v[0..] == v;
    while p < |v| && |cores| < MAX_CORES
      invariant p <= |v| && |cores| <= MAX_CORES
      invariant had + CoresIn(v, MAX_CORES - |had|) == cores + CoresIn(v[p..], MAX_CORES - |cores|)
      decreases |v| - p
    {
      CoresNext(v, p, MAX_CORES - |cores|);
      cores := cores + [ClampStep(Atoi(v[p..]))];
      p := NextItem(v, p);
    }
    NothingLeft(v, p, MAX_CORES - |cores|);
  }

  /** The members of a `crew=` value; text without an id and a colon before the comma is passed over. */
  method ReadCrew(v: string, had: seq<Member>) returns (crew: seq<Member>)
    requires |had| <= MAX_CREW
    ensures crew == had + CrewIn(v, MAX_CREW - |had|)
  {
    hide Entry, CrewIn, NextItem;
    crew := had;
    var p := 0;
    assert v[0..] == v;
    while p < |v| && |crew| < MAX_CREW
      invariant p <= |v| && |crew| <= MAX_CREW
      invariant had + CrewIn(v, MAX_CREW - |had|) == crew + CrewIn(v[p..], MAX_CREW - |crew|)
      decreases |v| - p
    {
      CrewNext(v, p, MAX_CREW - |crew|);
      var rest := v[p..];
      var colon, comma := Find(rest, ':'), Find(rest, ',');
      ghost var was := crew;
      if 0 < colon < comma {
        crew := crew + [Entry(rest, colon)];
      }
      assert crew == was + FirstMember(rest);
      p := NextItem(v, p);
    }
    NothingLeft(v, p, MAX_CREW - |crew|);
  }

  /** One word of the line. */
  method ReadWord(p: Parsed, word: string) returns (q: Parsed)
    requires |p.steps.cores| <= MAX_CORES && |p.steps.crew| <= MAX_CREW
    ensures q == Apply(p, word) && |q.steps.cores| <= MAX_CORES && |q.steps.crew| <= MAX_CREW
  {
    hide Atoi, Atof, ClampStep, StyleFrom, CoresIn, CrewIn, KeyOf, Set;
    q := p;
    var eq := Find(word, '=');
    if eq < |word| {
      var k, v := KeyOf(word[..eq]), word[eq + 1..];
      SetLists(p, v);
      if k == Some(Cores) {
        var cores := ReadCores(v, p.steps.cores);
        q := p.(steps := p.steps.(cores := cores));
      } else if k == Some(Crew) {
        var crew := ReadCrew(v, p.steps.crew);
        q := p.(steps := p.steps.(crew := crew));
      } else if k.Some? {
        SetOther(p, k.value, v);
        q := Set(p, k.value, v);
      }
    }
  }

  lemma SetLists(p: Parsed, v: string)
    requires |p.steps.cores| <= MAX_CORES && |p.steps.crew| <= MAX_CREW
    ensures Set(p, Cores, v) == p.(steps := p.steps.(cores := p.steps.cores + CoresIn(v, MAX_CORES - |p.steps.cores|)))
    ensures Set(p, Crew, v) == p.(steps := p.steps.(crew := p.steps.crew + CrewIn(v, MAX_CREW - |p.steps.crew|)))
  {
    hide CoresIn, CrewIn;
  }

  lemma SetOther(p: Parsed, k: Key, v: string)
    requires k != Cores && k != Crew
    ensures Set(p, k, v).steps.cores == p.steps.cores && Set(p, k, v).steps.crew == p.steps.crew
  {
    hide Atoi, Atof, ClampStep, StyleFrom, CoresIn, CrewIn;
  }

  /** A whole line, word after word. */
  method ReadLine(line: string) returns (p: Parsed)
    ensures p == Parse(line)
  {
    hide Apply, WordLength;
    var buf := Cut(line, LINE_LENGTH);
    p := Nothing;
    var at := 0;
    assert buf[0..] == buf;
    while at < |buf|
      invariant at <= |buf| && |p.steps.cores| <= MAX_CORES && |p.steps.crew| <= MAX_CREW
      invariant Run(p, Tokens(buf[at..])) == Run(Nothing, Tokens(buf))
    {
      ghost var rest := buf[at..];
      if Blank(buf[at]) {
        assert rest[1..] == buf[at + 1..];
        at := at + 1;
      } else {
        var n := WordLength(buf[at..]);
        TokensNext(rest);
        assert rest[n..] == buf[at + n..];
        RunNext(p, rest[..n], Tokens(rest[n..]));
        p := ReadWord(p, buf[at..][..n]);
        at := at + n;
      }
    }
  }

  lemma TokensNext(s: string)
    requires s != "" && !Blank(s[0])
    ensures 0 < WordLength(s) && Tokens(s) == [s[..WordLength(s)]] + Tokens(s[WordLength(s)..])
  {
  }

  lemma RunNext(p: Parsed, word: string, words: seq<string>)
    ensures Run(p, [word] + words) == Run(Apply(p, word), words)
  {
    assert ([word] + words)[1..] == words;
  }

  // ---- between the reader and the voice ----

  function Volumes(lines: seq<string>): real {
    if lines == [] then 1.0
    else
      var v := Parse(lines[|lines| - 1]).volume;
      if v >= 0.0 then (if v > 4.0 then 4.0 else v) else Volumes(lines[..|lines| - 1])
  }

  function StyleNow(lines: seq<string>): int {
    if lines == [] then 0
    else
      var style := Parse(lines[|lines| - 1]).style;
      if style >= 0 then style else StyleNow(lines[..|lines| - 1])
  }

  function StepsNow(lines: seq<string>): Steps {
    if lines == [] then NoSteps else Parse(lines[|lines| - 1]).steps
  }

  /** Whether any line since the first `taken` had a log error, and an inbound connection, to say. */
  ghost predicate ErrorSince(lines: seq<string>, taken: nat) {
    exists i :: taken <= i < |lines| && Parse(lines[i]).error
  }

  ghost predicate InboundSince(lines: seq<string>, taken: nat) {
    exists i :: taken <= i < |lines| && Parse(lines[i]).inbound
  }

  lemma NextLine(lines: seq<string>, line: string, taken: nat)
    requires taken <= |lines|
    ensures var p, now := Parse(line), lines + [line];
      && StepsNow(now) == p.steps
      && StyleNow(now) == (if p.style >= 0 then p.style else StyleNow(lines))
      && Volumes(now) == (if p.volume < 0.0 then Volumes(lines) else if p.volume > 4.0 then 4.0 else p.volume)
      && ErrorSince(now, taken) == (ErrorSince(lines, taken) || p.error)
      && InboundSince(now, taken) == (InboundSince(lines, taken) || p.inbound)
  {
    hide Parse;
    var now := lines + [line];
    assert now[..|lines|] == lines && now[|lines|] == line;
    assert forall i :: 0 <= i < |lines| ==> now[i] == lines[i];
  }

  /** What the voice takes at one block. */
  datatype Taken = Taken(steps: Steps, style: int, volume: real, error: bool, inbound: bool)

  /** What the two threads share; the ghosts keep every line so far and how many the voice has taken. */
  class Shared {
    var steps: Steps
    var style: int
    var volume: real
    var error: bool
    var inbound: bool
    var isFresh: bool
    ghost var lines: seq<string>
    ghost var taken: nat

    ghost predicate Valid()
      reads this
    {
      && taken <= |lines| && isFresh == (taken < |lines|)
      && steps == StepsNow(lines) && style == StyleNow(lines) && volume == Volumes(lines)
      && error == ErrorSince(lines, taken) && inbound == InboundSince(lines, taken)
    }

    constructor ()
      ensures Valid() && lines == [] && taken == 0
    {
      steps, style, volume := NoSteps, 0, 1.0;
      error, inbound, isFresh := false, false, false;
      lines, taken := [], 0;
    }

    /** A line's levels replace the last ones; its one-offs wait until they are taken. */
    method Line(line: string)
      requires Valid()
      modifies this
      ensures Valid() && lines == old(lines) + [line] && taken == old(taken)
    {
      hide Parse, StepsNow, StyleNow, Volumes, ErrorSince, InboundSince;
      NextLine(lines, line, taken);
      var p := ReadLine(line);
      steps := p.steps;
      if p.style >= 0 { style := p.style; }
      if p.volume >= 0.0 { volume := if p.volume > 4.0 then 4.0 else p.volume; }
      error, inbound := error || p.error, inbound || p.inbound;
      isFresh := true;
      lines := lines + [line];
    }

    /** The voice takes it all: each one-off exactly once. */
    method Take() returns (t: Taken)
      requires Valid()
      modifies this
      ensures Valid() && lines == old(lines) && taken == |lines|
      ensures t.steps == StepsNow(lines) && t.style == StyleNow(lines) && t.volume == Volumes(lines)
      ensures t.error == ErrorSince(lines, old(taken)) && t.inbound == InboundSince(lines, old(taken))
    {
      hide Parse;
      t := Taken(steps, style, volume, error, inbound);
      error, inbound, isFresh := false, false, false;
      taken := |lines|;
    }
  }

  /** One tick from sender to voice: everything said arrives, the crew exactly when its ids are clean. */
  method Tick(r: Report, shared: Shared)
    requires Fair(r) && shared.Valid()
    modifies shared
    ensures shared.Valid() && shared.lines == old(shared.lines) + [Text(r)]
    ensures shared.steps == r.steps.(crew := shared.steps.crew)
    ensures shared.steps.crew == r.steps.crew <==> forall i :: 0 <= i < |r.steps.crew| ==> Clean(r.steps.crew[i].id)
    ensures shared.style == r.style && shared.volume == r.volume as real / 100.0
    ensures shared.error == (old(shared.error) || r.error) && shared.inbound == (old(shared.inbound) || r.inbound)
  {
    hide Text, Parse, StepsNow, StyleNow, Volumes, ErrorSince, InboundSince, CrewIn, Commas, Members, Clean;
    LineFits(r);
    ReadsBack(r);
    CrewExactly(r.steps.crew);
    var line := Compose(r);
    NextLine(shared.lines, line.value, shared.taken);
    shared.Line(line.value);
  }
}
