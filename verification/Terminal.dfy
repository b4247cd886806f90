/** Terminal text as declared: pieces between line feeds, what each resolves to, and colours stripped. */
module Terminal {
  import opened Arithmetic
  import opened BuildLog

  const LF := '\n'
  const CR := '\r'
  const NUL := '\0'
  const ESC := '\U{1b}'
  const LINE := 2047
  const EMIT := 1199

  // ---- lines ----

  /** The text split at line feeds; the last piece is still open. */
  function Pieces(s: string): (ps: seq<string>)
    ensures |ps| >= 1
  {
    if s == "" then [""]
    else
      var ps, c := Pieces(s[..|s| - 1]), s[|s| - 1];
      if c == LF then ps + [""] else ps[..|ps| - 1] + [ps[|ps| - 1] + [c]]
  }

  /** The next character either ends the open piece or extends it. */
  lemma PiecesNext(s: string, c: char)
    ensures Pieces(s + [c]) ==
      if c == LF then Pieces(s) + [""] else Pieces(s)[..|Pieces(s)| - 1] + [Pieces(s)[|Pieces(s)| - 1] + [c]]
  {
    assert (s + [c])[..|s|] == s;
  }

  function Closed(s: string): seq<string> {
    var ps := Pieces(s);
    ps[..|ps| - 1]
  }

  function Open(s: string): string {
    var ps := Pieces(s);
    ps[|ps| - 1]
  }

  function Joined(ps: seq<string>): string
    requires |ps| >= 1
  {
    if |ps| == 1 then ps[0] else Joined(ps[..|ps| - 1]) + [LF] + ps[|ps| - 1]
  }

  /** `Pieces` is the one way to cut the text into pieces free of line feeds. */
  lemma {:induction false} PiecesJoin(s: string)
    ensures Joined(Pieces(s)) == s && LfFree(Pieces(s)) && forall i :: 0 <= i < |Pieces(s)| ==> LF !in Pieces(s)[i]
  {
    if s == "" {
      NoPieces();
    } else {
      hide Pieces, Joined, LfFree;
      var init, c := s[..|s| - 1], s[|s| - 1];
      PiecesJoin(init);
      assert s == init + [c];
      PiecesNext(init, c);
      var ps := Pieces(init);
      LfFreeNext(ps, c);
      if c == LF {
        JoinedEmpty(ps);
      } else {
        var n := |ps| - 1;
        assert ps == ps[..n] + [ps[n]];
        JoinedNext(ps[..n], ps[n], c);
      }
    }
  }

  predicate LfFree(ps: seq<string>) {
    forall i :: 0 <= i < |ps| ==> LF !in ps[i]
  }

  lemma LfFreeNext(ps: seq<string>, c: char)
    requires LfFree(ps) && |ps| >= 1
    ensures c == LF ==> LfFree(ps + [""])
    ensures c != LF ==> LfFree(ps[..|ps| - 1] + [ps[|ps| - 1] + [c]])
  {
  }

  lemma NoPieces()
    ensures Pieces("") == [""] && Joined([""]) == "" && LfFree([""])
  {
  }

  lemma {:induction false} PiecesUnique(ps: seq<string>)
    requires |ps| >= 1 && forall i :: 0 <= i < |ps| ==> LF !in ps[i]
    ensures Pieces(Joined(ps)) == ps
  {
    assert ps == ps[..|ps| - 1] + [ps[|ps| - 1]];
    PiecesOf(ps[..|ps| - 1], ps[|ps| - 1]);
  }

  lemma {:induction false} PiecesOf(init: seq<string>, last: string)
    requires LF !in last && forall i :: 0 <= i < |init| ==> LF !in init[i]
    ensures Pieces(Joined(init + [last])) == init + [last]
    decreases |init|, |last|
  {
    if last != "" {
      var n := |last| - 1;
      PiecesOf(init, last[..n]);
      assert last == last[..n] + [last[n]];
      JoinedNext(init, last[..n], last[n]);
      PiecesNext(Joined(init + [last[..n]]), last[n]);
    } else if init != [] {
      var k := |init| - 1;
      assert init == init[..k] + [init[k]];
      PiecesOf(init[..k], init[k]);
      JoinedEmpty(init);
      PiecesNext(Joined(init), LF);
    }
  }

  lemma JoinedEmpty(init: seq<string>)
    requires init != []
    ensures Joined(init + [""]) == Joined(init) + [LF]
  {
    assert (init + [""])[..|init|] == init;
  }

  lemma JoinedNext(init: seq<string>, p: string, c: char)
    ensures Joined(init + [p + [c]]) == Joined(init + [p]) + [c]
  {
    assert (init + [p + [c]])[..|init|] == init == (init + [p])[..|init|];
  }

  function DropCr(s: string): string {
    if s != "" && s[|s| - 1] == CR then s[..|s| - 1] else s
  }

  /** What follows the last carriage return. */
  function AfterCr(s: string): (r: string)
    ensures CR !in r && |r| <= |s| && r == s[|s| - |r|..]
    ensures |r| < |s| ==> s[|s| - |r| - 1] == CR
  {
    if s == "" || s[|s| - 1] == CR then "" else AfterCr(s[..|s| - 1]) + [s[|s| - 1]]
  }

  /** What one line shows once every redraw is done: at most a buffer of what follows the last rewind. */
  function Resolve(piece: string): string {
    Cut(AfterCr(DropCr(piece)), LINE)
  }

  /** The lines of finished pieces; one that resolves to nothing is dropped. */
  function Lines(ps: seq<string>): seq<string> {
    if ps == [] then [] else Lines(ps[..|ps| - 1]) + Kept(Resolve(ps[|ps| - 1]))
  }

  function Kept(l: string): seq<string> {
    if l == "" then [] else [l]
  }

  lemma LinesNext(ps: seq<string>, p: string)
    ensures Lines(ps + [p]) == Lines(ps) + Kept(Resolve(p))
  {
    assert (ps + [p])[..|ps|] == ps;
  }

  // ---- colours ----

  predicate Param(c: char) {
    c == ';' || '0' <= c <= '9'
  }

  /** Past an escape sequence's parameters and its final character. */
  function Skip(m: string): (r: string)
    ensures |r| <= |m|
  {
    if m == "" then "" else if Param(m[0]) then Skip(m[1..]) else m[1..]
  }

  /** The strip walking memory until a terminator, or until the output is full. */
  function Walk(m: string, room: nat): (r: string)
    ensures |r| <= room && |r| <= |m|
    decreases |m|
  {
    if m == "" || m[0] == NUL || room == 0 then ""
    else if |m| >= 2 && m[0] == ESC && m[1] == '[' then Walk(Skip(m[2..]), room)
    else [m[0]] + Walk(m[1..], room - 1)
  }

  /** A text without its escape sequences. */
  function Strip(s: string): (r: string)
    ensures |r| <= |s|
    decreases |s|
  {
    if s == "" then ""
    else if |s| >= 2 && s[0] == ESC && s[1] == '[' then Strip(Skip(s[2..]))
    else [s[0]] + Strip(s[1..])
  }

  /** All of `s` is parameters: the text ends before the sequence's final character. */
  predicate AllParams(s: string) {
    forall i :: 0 <= i < |s| ==> Param(s[i])
  }

  /** The text ends inside an escape sequence. */
  predicate EndsInEscape(s: string)
    decreases |s|
  {
    if s == "" then false
    else if |s| >= 2 && s[0] == ESC && s[1] == '[' then AllParams(s[2..]) || EndsInEscape(Skip(s[2..]))
    else EndsInEscape(s[1..])
  }

  lemma {:induction false} SkipBefore(s: string, more: string)
    requires NUL !in s
    ensures if AllParams(s) then Skip(s + [NUL] + more) == more && Skip(s) == ""
            else Skip(s + [NUL] + more) == Skip(s) + [NUL] + more && NUL !in Skip(s)
  {
    if s == "" {
      assert s + [NUL] + more == [NUL] + more;
    } else {
      var m := s + [NUL] + more;
      assert m[1..] == s[1..] + [NUL] + more && m[0] == s[0];
      SkipBefore(s[1..], more);
      if Param(s[0]) {
        assert AllParams(s) <==> AllParams(s[1..]) by {
          if AllParams(s[1..]) {
            forall i | 0 <= i < |s|
              ensures Param(s[i])
            {
              assert i > 0 ==> s[i] == s[1..][i - 1];
            }
          }
        }
      }
    }
  }

  lemma Behind(s: string, more: string, k: nat)
    requires k <= |s|
    ensures (s + [NUL] + more)[k..] == s[k..] + [NUL] + more
    ensures forall i :: 0 <= i < |s| ==> (s + [NUL] + more)[i] == s[i]
  {
  }

  /** What the strip of a terminated text yields, whatever lies in memory behind it. */
  lemma {:induction false} WalkPastTerminator(s: string, more: string, room: nat)
    requires NUL !in s && |s| <= room
    ensures Walk(s + [NUL] + more, room) == Strip(s) + (if EndsInEscape(s) then Walk(more, room - |Strip(s)|) else "")
    decreases |s|
  {
    hide Walk, Skip, AllParams, Strip, EndsInEscape;
    if s == "" {
      WalkNothing(more, room);
    } else if |s| >= 2 && s[0] == ESC && s[1] == '[' {
      StripEscape(s);
      WalkPastEscape(s, more, room);
      if !AllParams(s[2..]) {
        SkipBefore(s[2..], more);
        WalkPastTerminator(Skip(s[2..]), more, room);
      }
    } else {
      StripChar(s);
      WalkPastChar(s, more, room);
      WalkPastTerminator(s[1..], more, room - 1);
    }
  }

  lemma StripEscape(s: string)
    requires |s| >= 2 && s[0] == ESC && s[1] == '['
    ensures Strip(s) == Strip(Skip(s[2..])) && EndsInEscape(s) == (AllParams(s[2..]) || EndsInEscape(Skip(s[2..])))
    ensures Strip("") == ""
  {
  }

  lemma WalkNothing(more: string, room: nat)
    ensures Walk("" + [NUL] + more, room) == "" == Strip("") && !EndsInEscape("")
  {
    Behind("", more, 0);
  }

  lemma StripChar(s: string)
    requires |s| >= 1 && !(|s| >= 2 && s[0] == ESC && s[1] == '[')
    ensures Strip(s) == [s[0]] + Strip(s[1..]) && EndsInEscape(s) == EndsInEscape(s[1..])
  {
  }

  lemma WalkPastEscape(s: string, more: string, room: nat)
    requires NUL !in s && 2 <= |s| <= room && s[0] == ESC && s[1] == '['
    ensures Walk(s + [NUL] + more, room) == Walk(if AllParams(s[2..]) then more else Skip(s[2..]) + [NUL] + more, room)
    ensures AllParams(s[2..]) ==> Skip(s[2..]) == ""
  {
    Behind(s, more, 2);
    hide Skip, AllParams;
    SkipBefore(s[2..], more);
  }

  lemma WalkPastChar(s: string, more: string, room: nat)
    requires NUL !in s && 1 <= |s| <= room && !(|s| >= 2 && s[0] == ESC && s[1] == '[')
    ensures Walk(s + [NUL] + more, room) == [s[0]] + Walk(s[1..] + [NUL] + more, room - 1)
  {
    var m := s + [NUL] + more;
    Behind(s, more, 1);
    assert |s| == 1 ==> m[1] == NUL;
  }

  lemma {:induction false} OpenEscapeLeavesRoom(s: string)
    requires EndsInEscape(s)
    ensures |Strip(s)| < |s|
    decreases |s|
  {
    if |s| >= 2 && s[0] == ESC && s[1] == '[' {
      assert |Skip(s[2..])| <= |s| - 2;
    } else {
      OpenEscapeLeavesRoom(s[1..]);
    }
  }

  /** The strip depends on the text alone exactly when the text does not end inside an escape sequence. */
  lemma StripSoundExactly(s: string, room: nat)
    requires NUL !in s && |s| <= room
    ensures (forall more: string :: Walk(s + [NUL] + more, room) == Strip(s)) <==> !EndsInEscape(s)
  {
    forall more: string
      ensures Walk(s + [NUL] + more, room) == Strip(s) + (if EndsInEscape(s) then Walk(more, room - |Strip(s)|) else "")
    {
      WalkPastTerminator(s, more, room);
    }
    if EndsInEscape(s) {
      OpenEscapeLeavesRoom(s);
      assert Walk("x", room - |Strip(s)|) == "x";
      assert Walk(s + [NUL] + "x", room) != Strip(s);
    }
  }

  predicate HasEscape(s: string) {
    exists i :: 0 <= i < |s| - 1 && s[i] == ESC && s[i + 1] == '['
  }

  lemma EscapeBehind(s: string)
    requires s != "" && !(|s| >= 2 && s[0] == ESC && s[1] == '[')
    ensures HasEscape(s) <==> HasEscape(s[1..])
  {
    if HasEscape(s[1..]) {
      var i :| 0 <= i < |s[1..]| - 1 && s[1..][i] == ESC && s[1..][i + 1] == '[';
      assert s[i + 1] == ESC && s[i + 1 + 1] == '[';
    }
    if HasEscape(s) {
      var i :| 0 <= i < |s| - 1 && s[i] == ESC && s[i + 1] == '[';
      var k := if i == 0 then 0 else i - 1;
      assert s[1..][k] == s[k + 1] && s[1..][k + 1] == s[k + 2];
    }
  }

  /** Exactly when stripping changes nothing. */
  lemma {:induction false} StripsNothing(s: string)
    ensures Strip(s) == s <==> !HasEscape(s)
    ensures !HasEscape(s) ==> !EndsInEscape(s)
    decreases |s|
  {
    if s != "" {
      if |s| >= 2 && s[0] == ESC && s[1] == '[' {
        assert |Strip(s)| <= |s| - 2;
      } else {
        StripsNothing(s[1..]);
        EscapeBehind(s);
        assert s == [s[0]] + s[1..];
      }
    }
  }

  // ---- what a sequence is ----

  lemma {:induction false} SkipParams(p: string, f: char, b: string)
    requires forall i :: 0 <= i < |p| ==> p[i] == ';' || '0' <= p[i] <= '9'
    requires f != ';' && !('0' <= f <= '9')
    ensures Skip(p + [f] + b) == b
    decreases |p|
  {
    var m := p + [f] + b;
    if p != "" {
      SkipParams(p[1..], f, b);
      assert m[1..] == p[1..] + [f] + b;
    }
  }

  /** A sequence goes with its parameters, digits and semicolons, and the character behind them. */
  lemma StripsSequence(p: string, f: char, b: string)
    requires forall i :: 0 <= i < |p| ==> p[i] == ';' || '0' <= p[i] <= '9'
    requires f != ';' && !('0' <= f <= '9')
    ensures Strip([ESC, '['] + p + [f] + b) == Strip(b)
    ensures EndsInEscape([ESC, '['] + p + [f] + b) == EndsInEscape(b)
  {
    var m := [ESC, '['] + p + [f] + b;
    assert m[2..] == p + [f] + b;
    assert !AllParams(m[2..]) by {
      assert m[2..][|p|] == f;
    }
    SkipParams(p, f, b);
  }

  lemma {:induction false} SkipInside(s: string, more: string)
    requires !AllParams(s)
    ensures Skip(s + more) == Skip(s) + more
  {
    assert (s + more)[0] == s[0] && (s + more)[1..] == s[1..] + more;
    if Param(s[0]) {
      assert !AllParams(s[1..]) by {
        var i :| 0 <= i < |s| && !Param(s[i]);
        assert s[1..][i - 1] == s[i];
      }
      SkipInside(s[1..], more);
    }
  }

  /** Text that does not end inside a sequence is stripped by itself, unless it splits one. */
  lemma {:induction false} StripsApart(a: string, b: string)
    requires !EndsInEscape(a) && (b != "" ==> b[0] != '[')
    ensures Strip(a + b) == Strip(a) + Strip(b)
    decreases |a|
  {
    hide AllParams, Skip, Strip, EndsInEscape;
    NothingStripped();
    if a == "" {
      assert a + b == b;
    } else if |a| >= 2 && a[0] == ESC && a[1] == '[' {
      StripEscape(a);
      StripEscape(a + b);
      SkipInside(a[2..], b);
      assert (a + b)[2..] == a[2..] + b;
      StripsApart(Skip(a[2..]), b);
    } else {
      StripChar(a);
      StripChar(a + b);
      assert (a + b)[1..] == a[1..] + b && (a + b)[0] == a[0];
      StripsApart(a[1..], b);
    }
  }

  /** A sequence anywhere behind text that does not itself end inside one. */
  lemma StripsWithin(a: string, p: string, f: char, b: string)
    requires !EndsInEscape(a)
    requires forall i :: 0 <= i < |p| ==> p[i] == ';' || '0' <= p[i] <= '9'
    requires f != ';' && !('0' <= f <= '9')
    ensures Strip(a + [ESC, '['] + p + [f] + b) == Strip(a) + Strip(b)
  {
    hide Strip, EndsInEscape;
    var m := [ESC, '['] + p + [f] + b;
    StripsSequence(p, f, b);
    StripsApart(a, m);
    assert a + m == a + [ESC, '['] + p + [f] + b;
  }

  /** What a coloured line is made of. */
  datatype Part = Plain(c: char) | Code(params: string, final: char)

  predicate Written(part: Part) {
    match part
    case Plain(c) => c != ESC && c != NUL && c != CR && c != LF
    case Code(params, final) =>
      && (forall i :: 0 <= i < |params| ==> params[i] == ';' || '0' <= params[i] <= '9')
      && final != ';' && !('0' <= final <= '9') && final != NUL && final != CR && final != LF
  }

  function Text(parts: seq<Part>): string {
    if parts == [] then ""
    else
      (match parts[0] case Plain(c) => [c] case Code(params, final) => [ESC, '['] + params + [final])
      + Text(parts[1..])
  }

  function PlainText(parts: seq<Part>): string {
    if parts == [] then ""
    else (match parts[0] case Plain(c) => [c] case Code(_, _) => "") + PlainText(parts[1..])
  }

  lemma PartStripped(part: Part, more: string)
    requires Written(part)
    ensures var t := Text([part]) + more;
      && Strip(t) == PlainText([part]) + Strip(more) && EndsInEscape(t) == EndsInEscape(more)
    ensures NUL !in Text([part]) && CR !in Text([part]) && LF !in Text([part])
  {
    hide Strip, EndsInEscape;
    match part {
      case Plain(c) =>
        StripChar([c] + more);
        assert ([c] + more)[1..] == more;
        assert Text([part]) == [c];
      case Code(params, final) =>
        StripsSequence(params, final, more);
        assert Text([part]) == [ESC, '['] + params + [final];
        assert PlainText([part]) == "";
    }
  }

  lemma TextNext(parts: seq<Part>)
    requires parts != []
    ensures Text(parts) == Text([parts[0]]) + Text(parts[1..])
    ensures PlainText(parts) == PlainText([parts[0]]) + PlainText(parts[1..])
  {
    assert Text([parts[0]][1..]) == "" && PlainText([parts[0]][1..]) == "";
  }

  /** Colours anywhere in a line, however many: the strip leaves the plain text. */
  lemma {:induction false} StripsColours(parts: seq<Part>)
    requires forall i :: 0 <= i < |parts| ==> Written(parts[i])
    ensures Strip(Text(parts)) == PlainText(parts) && !EndsInEscape(Text(parts))
    ensures NUL !in Text(parts) && CR !in Text(parts) && LF !in Text(parts)
    decreases |parts|
  {
    if parts == [] {
      NothingStripped();
    } else {
      hide Strip, EndsInEscape, Text, PlainText, Written;
      assert forall i :: 0 <= i < |parts| - 1 ==> parts[1..][i] == parts[i + 1];
      StripsColours(parts[1..]);
      TextNext(parts);
      PartStripped(parts[0], Text(parts[1..]));
    }
  }

  lemma NothingStripped()
    ensures Strip("") == "" && !EndsInEscape("")
  {
  }

  // ---- a line as it is handed on ----

  /** The C text of a buffer: up to its terminator. */
  function Shown(raw: string): string {
    Cut(Strip(UpToNul(raw)), EMIT)
  }

  /** Exactly which lines are handed on as they were sent. */
  lemma ShownExactly(line: string)
    ensures Shown(line) == line <==> |line| <= 1199 && NUL !in line && !HasEscape(line)
  {
    var t := UpToNul(line);
    StripsNothing(t);
    if NUL !in line {
      assert t == line;
    } else {
      assert |t| < |line|;
    }
  }

  /** Lines sent over a terminal, each ended with a carriage return and a line feed. */
  function SentCrlf(ls: seq<string>): string {
    if ls == [] then "" else SentCrlf(ls[..|ls| - 1]) + ls[|ls| - 1] + [CR, LF]
  }

  function WithCr(ls: seq<string>): (ps: seq<string>)
    ensures |ps| == |ls|
  {
    if ls == [] then [] else WithCr(ls[..|ls| - 1]) + [ls[|ls| - 1] + [CR]]
  }

  lemma {:induction false} WithCrIsLfFree(ls: seq<string>)
    requires forall i :: 0 <= i < |ls| ==> LF !in ls[i]
    ensures forall i :: 0 <= i < |ls| ==> LF !in WithCr(ls)[i]
  {
    if ls != [] {
      WithCrIsLfFree(ls[..|ls| - 1]);
    }
  }

  lemma {:induction false} SentIsJoined(ls: seq<string>)
    ensures SentCrlf(ls) == Joined(WithCr(ls) + [""])
  {
    if ls != [] {
      var n := |ls| - 1;
      var qs, last := WithCr(ls[..n]), ls[n] + [CR];
      SentIsJoined(ls[..n]);
      SentStep(qs, last);
    }
  }

  lemma SentStep(qs: seq<string>, last: string)
    ensures Joined(qs + [last] + [""]) == Joined(qs + [""]) + last + [LF]
  {
    JoinedEmpty(qs + [last]);
    if qs != [] {
      JoinedEmpty(qs);
      assert (qs + [last])[..|qs|] == qs;
    }
  }

  lemma {:induction false} AfterNoCr(s: string)
    requires CR !in s
    ensures AfterCr(s) == s
  {
    if s != "" {
      AfterNoCr(s[..|s| - 1]);
    }
  }

  lemma ResolveCrFree(s: string)
    requires CR !in s && |s| <= LINE
    ensures Resolve(s + [CR]) == s
  {
    assert DropCr(s + [CR]) == s;
    AfterNoCr(s);
  }

  /** A line drawn over: what follows its last rewind is what it shows. */
  lemma LastDrawn(before: string, line: string)
    requires CR !in line && line != ""
    ensures var shown := if |line| <= 2047 then line else line[..2047];
      Resolve(before + [CR] + line) == shown && Resolve(before + [CR] + line + [CR]) == shown
  {
    var s := before + [CR] + line;
    assert DropCr(s) == s && DropCr(s + [CR]) == s;
    AfterLast(before, line);
  }

  lemma {:induction false} AfterLast(before: string, line: string)
    requires CR !in line
    ensures AfterCr(before + [CR] + line) == line
  {
    var s := before + [CR] + line;
    if line != "" {
      AfterLast(before, line[..|line| - 1]);
      assert s[..|s| - 1] == before + [CR] + line[..|line| - 1];
    }
  }

  /** A line that the stream can carry as one line. */
  predicate Sendable(l: string) {
    l != "" && CR !in l && LF !in l && |l| <= LINE
  }

  lemma NoLines()
    ensures Lines([]) == []
  {
  }

  lemma {:induction false} CrEndedLines(ls: seq<string>)
    requires forall i :: 0 <= i < |ls| ==> Sendable(ls[i])
    ensures Lines(WithCr(ls)) == ls
  {
    hide Resolve, Lines;
    if ls == [] {
      NoLines();
    } else {
      var n := |ls| - 1;
      CrEndedLines(ls[..n]);
      LinesNext(WithCr(ls[..n]), ls[n] + [CR]);
      ResolveCrFree(ls[n]);
      assert ls == ls[..n] + [ls[n]];
    }
  }

  /** Lines sent with CRLF endings come back, in order and whole. */
  lemma CrlfRoundTrip(ls: seq<string>)
    requires forall i :: 0 <= i < |ls| ==> Sendable(ls[i])
    ensures Lines(Closed(SentCrlf(ls))) == ls && Open(SentCrlf(ls)) == ""
  {
    var ps := WithCr(ls) + [""];
    WithCrIsLfFree(ls);
    SentIsJoined(ls);
    PiecesUnique(ps);
    assert ps[..|ps| - 1] == WithCr(ls);
    CrEndedLines(ls);
  }
}
