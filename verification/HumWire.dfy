/** The line's words as they stand on the wire, and what each of them sets. */
module HumWire {
  import opened Arithmetic
  import opened Words
  import opened HumLine
  import opened HumText

  // ---- the reader, key by key ----

  /** A line of one word sets its key to the value, as much of it as the reader's buffer holds. */
  lemma OneWord(k: Key, word: string, v: string, room: nat)
    requires Plain(v) && word == NameOf(k) + "=" + v && |NameOf(k)| + 1 + room == 1023
    ensures Parse(word) == Set(Nothing, k, Cut(v, room))
  {
    hide NameOf, KeyIn, ValueIn, Set;
    var name, kept := NameOf(k), Cut(v, room);
    EveryKey(k);
    assert Cut(word, LINE_LENGTH) == name + "=" + kept;
    WordAlone(name + "=" + kept);
    assert WordOf((k, kept)) == name + "=" + kept;
    FieldInWord((k, kept));
    RunOne(Nothing, name + "=" + kept);
  }

  lemma WordAlone(w: string)
    requires w != "" && Plain(w)
    ensures Tokens(w) == [w]
  {
    TokensWord(w, "");
    NoTokens();
    assert w + "" == w;
  }

  lemma RunOne(p: Parsed, w: string)
    ensures Run(p, [w]) == Apply(p, w)
  {
    hide Apply;
    assert [w][1..] == [];
  }

  lemma Names()
    ensures NameOf(Style) == "style" && NameOf(Volume) == "volume" && NameOf(Stall) == "stall"
    ensures NameOf(Net) == "net" && NameOf(Disk) == "disk" && NameOf(Error) == "error" && NameOf(Inbound) == "inbound"
    ensures NameOf(Spawn) == "spawn" && NameOf(Sched) == "sched" && NameOf(CpuWait) == "cpuwait"
    ensures NameOf(IoWait) == "iowait" && NameOf(Talk) == "talk" && NameOf(Crew) == "crew" && NameOf(Cores) == "cores"
  {
  }

  /** A level: the number in front, not under 0 and not over 15. */
  function Step(v: string): nat {
    var n := Atoi(v);
    if n < 0 then 0 else if n > 15 then 15 else n
  }

  lemma StepIs(v: string)
    ensures ClampStep(Atoi(v)) == Step(v)
  {
    hide Atoi;
  }

  /** Every key that carries a level sets that level alone. */
  lemma LevelWords(v: string)
    requires Plain(v)
    ensures Parse("stall=" + v) == Nothing.(steps := NoSteps.(stall := Step(Cut(v, 1017))))
    ensures Parse("net=" + v) == Nothing.(steps := NoSteps.(net := Step(Cut(v, 1019))))
    ensures Parse("disk=" + v) == Nothing.(steps := NoSteps.(disk := Step(Cut(v, 1018))))
    ensures Parse("spawn=" + v) == Nothing.(steps := NoSteps.(spawn := Step(Cut(v, 1017))))
    ensures Parse("sched=" + v) == Nothing.(steps := NoSteps.(sched := Step(Cut(v, 1017))))
    ensures Parse("cpuwait=" + v) == Nothing.(steps := NoSteps.(cpuWait := Step(Cut(v, 1015))))
    ensures Parse("iowait=" + v) == Nothing.(steps := NoSteps.(ioWait := Step(Cut(v, 1016))))
  {
    hide Parse, Atoi, Atof, CoresIn, CrewIn, NameOf, Step, ClampStep, StyleFrom, Cut;
    Names();
    StepIs(Cut(v, 1017)); StepIs(Cut(v, 1019)); StepIs(Cut(v, 1018)); StepIs(Cut(v, 1015)); StepIs(Cut(v, 1016));
    OneWord(Stall, "stall=" + v, v, 1017);
    OneWord(Net, "net=" + v, v, 1019);
    OneWord(Disk, "disk=" + v, v, 1018);
    OneWord(Spawn, "spawn=" + v, v, 1017);
    OneWord(Sched, "sched=" + v, v, 1017);
    OneWord(CpuWait, "cpuwait=" + v, v, 1015);
    OneWord(IoWait, "iowait=" + v, v, 1016);
  }

  /** The flags, the volume and the two lists. */
  lemma OtherWords(v: string)
    requires Plain(v)
    ensures Parse("error=" + v) == Nothing.(error := Atoi(Cut(v, 1017)) > 0)
    ensures Parse("inbound=" + v) == Nothing.(inbound := Atoi(Cut(v, 1015)) > 0)
    ensures Parse("talk=" + v) == Nothing.(steps := NoSteps.(talk := Atoi(Cut(v, 1018)) > 0))
    ensures Parse("volume=" + v) == Nothing.(volume := Atof(Cut(v, 1016)))
    ensures Parse("cores=" + v) == Nothing.(steps := NoSteps.(cores := CoresIn(Cut(v, 1017), 16)))
    ensures Parse("crew=" + v) == Nothing.(steps := NoSteps.(crew := CrewIn(Cut(v, 1018), 8)))
  {
    hide Parse, Atoi, Atof, CoresIn, CrewIn, NameOf, ClampStep, StyleFrom, Cut;
    Names();
    OneWord(Error, "error=" + v, v, 1017);
    OneWord(Inbound, "inbound=" + v, v, 1015);
    OneWord(Talk, "talk=" + v, v, 1018);
    OneWord(Volume, "volume=" + v, v, 1016);
    OneWord(Cores, "cores=" + v, v, 1017);
    OneWord(Crew, "crew=" + v, v, 1018);
  }

  /** The styles by name; any other name sets none. */
  lemma StyleWords(v: string)
    requires Plain(v) && |v| <= 1017
    ensures Parse("style=" + v) == Nothing.(style :=
      if v == "uplink" then 0 else if v == "phreak" then 1 else if v == "hacker" then 2
      else if v == "harmonic" then 3 else if v == "deep" then 4 else if v == "techno" then 5
      else if v == "bytebeat" then 6 else -1)
  {
    hide Parse, NameOf, StyleFrom;
    Names();
    OneWord(Style, "style=" + v, v, 1017);
    StylesWritten(v);
  }

  lemma StylesWritten(v: string)
    ensures StyleFrom(v, 0) ==
      if v == "uplink" then 0 else if v == "phreak" then 1 else if v == "hacker" then 2
      else if v == "harmonic" then 3 else if v == "deep" then 4 else if v == "techno" then 5
      else if v == "bytebeat" then 6 else -1
  {
  }

  // ---- values ----

  /** Levels are printed in decimal. */
  lemma LevelWritten(n: nat)
    requires n <= 15
    ensures Digits(n) == if n < 10 then ["0123456789"[n]] else ['1', "0123456789"[n - 10]]
  {
  }

  /** A volume is its whole part, a point and two digits. */
  lemma VolumeWritten(v: nat)
    requires v <= 400
    ensures TwoPlaces(v) == ["0123456789"[v / 100], '.', "0123456789"[v / 10 % 10], "0123456789"[v % 10]]
  {
  }

  /** A list of one member: the id, a colon, what they are doing, their ticket's priority. */
  lemma MemberWord(id: string, letter: char, digit: char)
    requires id != "" && |id| <= 15 && Plain(id) && ':' !in id && ',' !in id
    requires !Blank(letter) && letter != ',' && letter != NUL && '0' <= digit <= '9'
    ensures Parse("crew=" + id + ":" + [letter, digit]) == Nothing.(steps := NoSteps.(crew :=
      [Member(id, if letter == 'w' then Working else if letter == 'h' then Waiting
                  else if letter == 't' then Talking else Idle, (digit - '0') as nat)]))
  {
    hide Parse, CrewIn;
    var v := id + ":" + [letter, digit];
    OtherWords(v);
    assert "crew=" + v == "crew=" + id + ":" + [letter, digit];
    OneMember(id, letter, digit);
  }

  lemma OneMember(id: string, letter: char, digit: char)
    requires id != "" && |id| <= 15 && ':' !in id && ',' !in id
    requires letter != ',' && letter != NUL && '0' <= digit <= '9'
    ensures CrewIn(id + ":" + [letter, digit], 8) ==
      [Member(id, if letter == 'w' then Working else if letter == 'h' then Waiting
                  else if letter == 't' then Talking else Idle, (digit - '0') as nat)]
  {
    var v := id + ":" + [letter, digit];
    FindIs(id, ':', [letter, digit]);
    FindNone(v, ',');
    assert v[|id|] == ':' && v[|id| + 1] == letter && v[|id| + 2] == digit && v[..|id|] == id;
    hide Find;
    assert FirstMember(v) == [Entry(v, |id|)];
  }
}
