/** The read loop over a build's terminal: bytes in any chunks, lines out to the panel. */
module PtyStream {
  import opened Arithmetic
  import opened BuildLog
  import opened Terminal

  method SkipParams(buf: seq<char>, from: nat) returns (i: nat)
    requires from <= |buf|
    ensures from <= i <= |buf| && Skip(buf[from..]) == (if i == |buf| then "" else buf[i + 1..])
  {
    i := from;
    while i < |buf| && Param(buf[i])
      invariant from <= i <= |buf| && Skip(buf[from..]) == Skip(buf[i..])
    {
      i := i + 1;
    }
  }

  /** `buf` is the whole buffer: the text, its terminator and whatever lies behind. */
  method StripAnsi(buf: seq<char>, room: nat) returns (clean: string)
    ensures clean == Walk(buf, room)
  {
    hide Skip, Walk;
    clean := "";
    var i := 0;
    while i < |buf| && buf[i] != NUL && |clean| < room
      invariant 0 <= i <= |buf| && |clean| <= room
      invariant Walk(buf, room) == clean + Walk(buf[i..], room - |clean|)
      decreases |buf| - i
    {
      WalkOn(buf, i, room - |clean|);
      if buf[i] == ESC && i + 1 < |buf| && buf[i + 1] == '[' {
        i := SkipParams(buf, i + 2);
        i := if i < |buf| then i + 1 else i;
      } else {
        clean := clean + [buf[i]];
        i := i + 1;
      }
    }
    WalkStops(buf, i, room - |clean|);
  }

  lemma WalkOn(buf: seq<char>, i: nat, room: nat)
    requires i < |buf| && buf[i] != NUL && 0 < room
    ensures Walk(buf[i..], room) ==
      if buf[i] == ESC && i + 1 < |buf| && buf[i + 1] == '[' then Walk(Skip(buf[i + 2..]), room)
      else [buf[i]] + Walk(buf[i + 1..], room - 1)
  {
    hide Skip;
    var m := buf[i..];
    assert m[1..] == buf[i + 1..];
    if i + 1 < |buf| {
      assert m[2..] == buf[i + 2..];
    }
  }

  lemma WalkStops(buf: seq<char>, i: nat, room: nat)
    requires i <= |buf| && (i == |buf| || buf[i] == NUL || room == 0)
    ensures Walk(buf[i..], room) == ""
  {
  }

  // ---- what the loop knows of the bytes so far ----

  predicate EndsInCr(s: string) {
    s != "" && s[|s| - 1] == CR
  }

  function Extended(l: string, c: char): string {
    if |l| < LINE then l + [c] else l
  }

  /** How one character changes what the open piece resolves to. */
  lemma ResolveNext(q: string, c: char)
    ensures EndsInCr(q + [c]) == (c == CR)
    ensures c == CR ==> Resolve(q + [c]) == (if EndsInCr(q) then "" else Resolve(q))
    ensures c != CR ==> Resolve(q + [c]) == Extended(if EndsInCr(q) then "" else Resolve(q), c)
  {
    assert DropCr(q + [c]) == if c == CR then q else q + [c] by {
      assert (q + [c])[..|q|] == q;
    }
    assert EndsInCr(q) ==> AfterCr(q) == "";
    assert !EndsInCr(q) ==> DropCr(q) == q;
    hide AfterCr, DropCr, Cut;
    AfterNext(q, c);
    CutNext(AfterCr(q), c);
  }

  lemma CutNext(s: string, c: char)
    ensures Cut(s + [c], LINE) == Extended(Cut(s, LINE), c) && Cut("", LINE) == ""
  {
  }

  lemma AfterNext(q: string, c: char)
    ensures AfterCr(q + [c]) == if c == CR then "" else AfterCr(q) + [c]
  {
    assert (q + [c])[..|q|] == q;
  }

  lemma OpenNext(s: string, c: char)
    ensures if c == LF then Closed(s + [c]) == Closed(s) + [Open(s)] && Open(s + [c]) == ""
            else Closed(s + [c]) == Closed(s) && Open(s + [c]) == Open(s) + [c]
  {
    PiecesNext(s, c);
  }

  lemma BytesNext(s: string, c: char)
    ensures Open(s + [c]) == if c == LF then "" else Open(s) + [c]
    ensures Lines(Closed(s + [c])) == if c == LF then Lines(Closed(s)) + Kept(Resolve(Open(s))) else Lines(Closed(s))
  {
    OpenNext(s, c);
    LinesNext(Closed(s), Open(s));
  }

  /** A line that shows nothing is no line of the panel, however it ends. */
  lemma NothingShown(s: string)
    requires Open(s) == ""
    ensures Lines(Closed(s + [LF])) == Lines(Closed(s)) && Lines(Closed(s + [CR] + [LF])) == Lines(Closed(s))
  {
    hide Lines, Closed, Open, Resolve, EndsInCr;
    AtStart();
    BytesNext(s, LF);
    BytesNext(s, CR);
    BytesNext(s + [CR], LF);
    CrShowsNothing();
    assert Lines(Closed(s)) + [] == Lines(Closed(s));
  }

  lemma CrShowsNothing()
    ensures Resolve("" + [CR]) == "" && Resolve("") == ""
  {
    hide Resolve;
    AtStart();
    ResolveNext("", CR);
  }

  lemma AllLines(s: string)
    ensures Lines(Pieces(s)) == Lines(Closed(s)) + Kept(Resolve(Open(s)))
  {
    assert Pieces(s) == Closed(s) + [Open(s)];
    LinesNext(Closed(s), Open(s));
  }

  /** Text handed on for a raw line: its own, and more from behind it only if it ends inside an escape sequence. */
  ghost predicate IsText(clean: string, raw: string) {
    Strip(UpToNul(raw)) <= clean && (!EndsInEscape(UpToNul(raw)) ==> clean == Strip(UpToNul(raw)))
  }

  ghost predicate AreTexts(cleans: seq<string>, raws: seq<string>) {
    |cleans| == |raws| && forall i :: 0 <= i < |raws| ==> IsText(cleans[i], raws[i])
  }

  /** The panel's lines for the lines handed on so far. */
  function OnPanel(cleans: seq<string>): (r: seq<string>)
    ensures |r| == |cleans|
  {
    seq(|cleans|, i requires 0 <= i < |cleans| => Cut(Cut(cleans[i], EMIT), LINE_WIDTH - 1))
  }

  lemma BufferText(buf: seq<char>, n: nat)
    requires n < |buf| && n <= LINE && buf[n] == NUL
    ensures IsText(Walk(buf, LINE), buf[..n])
  {
    hide Walk, Strip, EndsInEscape;
    var t := UpToNul(buf[..n]);
    assert buf[|t|] == NUL;
    CutAt(buf, t);
    WalkPastTerminator(t, buf[|t| + 1..], LINE);
  }

  lemma CutAt(buf: seq<char>, t: string)
    requires t <= buf && |t| < |buf| && buf[|t|] == NUL
    ensures buf == t + [NUL] + buf[|t| + 1..]
  {
  }

  lemma AtStart()
    ensures Open("") == "" && Lines(Closed("")) == [] && Resolve("") == "" && !EndsInCr("") && OnPanel([]) == []
  {
  }

  class Reader {
    const log: Log
    const line: array<char>
    var lineLen: nat
    var pendingCr: bool
    ghost var bytes: string        // everything read so far
    ghost var emitted: seq<string> // every line handed on, before its cut
    ghost var drawn: string        // the bytes read when the panel's open line was last drawn
    ghost const before: seq<string> // the panel's lines when the stream began
    ghost const calls: nat         // and how many calls it had had

    /** The buffer holds what the open piece resolves to so far. */
    ghost predicate Buffered(piece: string)
      reads `lineLen, `pendingCr, line
    {
      && line.Length == LINE + 1 && lineLen <= LINE
      && line[..lineLen] == Resolve(piece) && pendingCr == EndsInCr(piece)
    }

    /** The panel has gained exactly the texts of these raw lines. */
    ghost predicate Shows(raws: seq<string>)
      reads `emitted, log, log.lines
    {
      && log.Valid() && calls <= |log.calls|
      && Appended(log.calls) == before + OnPanel(emitted) && AreTexts(emitted, raws)
    }

    /** A redrawn line on the panel is what some earlier point of the stream showed, with no line finished since. */
    ghost predicate Redraws()
      reads `bytes, `drawn, log
    {
      Redrawing(log.calls) && calls < |log.calls| ==>
        && drawn <= bytes && Lines(Closed(drawn)) == Lines(Closed(bytes))
        && IsText(log.calls[|log.calls| - 1].line, Resolve(Open(drawn)))
    }

    ghost predicate Valid()
      reads this, line, log, log.lines
    {
      && line as object != log.lines
      && Buffered(Open(bytes)) && Shows(Lines(Closed(bytes))) && Redraws()
    }

    constructor (log: Log)
      requires log.Valid()
      ensures Valid() && bytes == "" && this.log == log && fresh(line)
      ensures before == Appended(log.calls)
    {
      hide Log.Valid, Lines, Closed, Open, Resolve, Appended;
      AtStart();
      this.log := log;
      line := new char[LINE + 1](_ => ' ');
      lineLen, pendingCr := 0, false;
      bytes, emitted, drawn := "", [], "";
      before, calls := Appended(log.calls), |log.calls|;
    }

    /** Terminates the buffered line and strips it. */
    method Clean() returns (clean: string)
      requires line.Length == LINE + 1 && lineLen <= LINE
      modifies line
      ensures line[..lineLen] == old(line[..lineLen])
      ensures IsText(clean, line[..lineLen])
    {
      line[lineLen] := NUL;
      BufferText(line[..], lineLen);
      assert line[..][..lineLen] == line[..lineLen];
      clean := StripAnsi(line[..], LINE);
    }

    /** The buffered line is finished. */
    method Flush(ghost raws: seq<string>)
      requires line as object != log.lines
      requires line.Length == LINE + 1 && 0 < lineLen <= LINE && Shows(raws)
      modifies this`lineLen, this`emitted, line, log, log.lines
      ensures log.lines == old(log.lines)
      ensures lineLen == 0 && Shows(raws + [old(line[..lineLen])])
      ensures !Redrawing(log.calls)
    {
      hide IsText, Cut, Appended;
      ghost var was := emitted;
      var clean := Clean();
      log.AppendLine(Cut(clean, EMIT));
      emitted := emitted + [clean];
      assert OnPanel(emitted) == OnPanel(was) + [Cut(Cut(clean, EMIT), LINE_WIDTH - 1)];
      lineLen := 0;
    }

    /** A carriage return that ended no line: the line so far is shown, if a redraw is due, and rewound. */
    method Rewind(due: bool, ghost raws: seq<string>) returns (ghost redrawn: bool)
      requires line as object != log.lines
      requires line.Length == LINE + 1 && lineLen <= LINE && Shows(raws)
      modifies this`lineLen, line, log
      ensures log.lines == old(log.lines)
      ensures lineLen == 0 && Shows(raws)
      ensures if redrawn
              then Redrawing(log.calls) && IsText(log.calls[|log.calls| - 1].line, old(line[..lineLen]))
              else log.calls == old(log.calls)
    {
      redrawn := false;
      if lineLen > 0 && due {
        var clean := Clean();
        log.UpdateProvisional(clean);
        redrawn := true;
      }
      lineLen := 0;
    }

    /** A pending carriage return meets the character after it. */
    method Settle(c: char, due: bool, ghost piece: string, ghost raws: seq<string>) returns (ghost redrawn: bool)
      requires line as object != log.lines && Buffered(piece) && Shows(raws)
      modifies this`lineLen, this`pendingCr, line, log
      ensures log.lines == old(log.lines) && Shows(raws)
      ensures line.Length == LINE + 1 && lineLen <= LINE && !pendingCr
      ensures line[..lineLen] == if EndsInCr(piece) && c != LF then "" else Resolve(piece)
      ensures if redrawn
              then c != LF && Redrawing(log.calls) && IsText(log.calls[|log.calls| - 1].line, Resolve(piece))
              else log.calls == old(log.calls)
    {
      hide Shows, Resolve, IsText, Redrawing;
      redrawn := false;
      if pendingCr {
        pendingCr := false;
        if c != LF {
          redrawn := Rewind(due, raws);
        }
      }
    }

    method EndLine(ghost piece: string, ghost raws: seq<string>)
      requires line as object != log.lines && Shows(raws) && !pendingCr
      requires line.Length == LINE + 1 && lineLen <= LINE && line[..lineLen] == Resolve(piece)
      modifies this`lineLen, this`emitted, line, log, log.lines
      ensures log.lines == old(log.lines)
      ensures Buffered("") && Shows(raws + Kept(Resolve(piece)))
      ensures if Resolve(piece) == "" then log.calls == old(log.calls) else !Redrawing(log.calls)
    {
      ghost var kept := Kept(Resolve(piece));
      if lineLen > 0 {
        assert kept == [line[..lineLen]];
        Flush(raws);
      } else {
        assert raws + kept == raws;
      }
      assert line[..lineLen] == "" == Resolve("");
    }

    /** One character against the open piece; `due` says whether enough time has passed since the last redraw. */
    method Step(c: char, due: bool, ghost piece: string, ghost raws: seq<string>) returns (ghost redrawn: bool)
      requires line as object != log.lines && Buffered(piece) && Shows(raws)
      modifies this`lineLen, this`pendingCr, this`emitted, line, log, log.lines
      ensures log.lines == old(log.lines)
      ensures c == LF ==> Buffered("") && Shows(raws + Kept(Resolve(piece)))
      ensures c != LF ==> Buffered(piece + [c]) && Shows(raws)
      ensures c == LF && Resolve(piece) != "" ==> !Redrawing(log.calls)
      ensures if redrawn
              then c != LF && Redrawing(log.calls) && IsText(log.calls[|log.calls| - 1].line, Resolve(piece))
              else log.calls == old(log.calls) || !Redrawing(log.calls)
    {
      hide Shows, Buffered, Resolve, EndsInCr, IsText, Redrawing, Kept;
      redrawn := Settle(c, due, piece, raws);
      if c == LF {
        EndLine(piece, raws);
      } else if c == CR {
        HoldCr(piece);
      } else {
        Put(c, piece);
      }
    }

    method HoldCr(ghost piece: string)
      requires line.Length == LINE + 1 && lineLen <= LINE
      requires line[..lineLen] == if EndsInCr(piece) then "" else Resolve(piece)
      modifies this`pendingCr
      ensures Buffered(piece + [CR])
    {
      pendingCr := true;
      ResolveNext(piece, CR);
    }

    method Put(c: char, ghost piece: string)
      requires line.Length == LINE + 1 && lineLen <= LINE && !pendingCr && c != CR
      requires line[..lineLen] == if EndsInCr(piece) then "" else Resolve(piece)
      modifies this`lineLen, line
      ensures Buffered(piece + [c])
    {
      hide Resolve, EndsInCr;
      ghost var l := line[..lineLen];
      if lineLen < LINE {
        line[lineLen] := c;
        lineLen := lineLen + 1;
      }
      assert line[..lineLen] == Extended(l, c);
      ResolveNext(piece, c);
    }

    /** One character of a chunk. */
    method Take(c: char, due: bool)
      requires Valid()
      modifies this, line, log, log.lines
      ensures Valid() && log.lines == old(log.lines)
      ensures bytes == old(bytes) + [c]
    {
      hide Shows, Buffered, Lines, Closed, Open, Resolve, IsText, Redrawing;
      ghost var was, piece, raws := bytes, Open(bytes), Lines(Closed(bytes));
      ghost var redrawn := Step(c, due, piece, raws);
      bytes := bytes + [c];
      BytesNext(was, c);
      if redrawn {
        drawn := was;
      }
      assert was <= bytes && raws + [] == raws;
    }

    /** One chunk, of any length. */
    method Read(chunk: string, due: seq<bool>)
      requires Valid() && |due| == |chunk|
      modifies this, line, log, log.lines
      ensures Valid() && log.lines == old(log.lines)
      ensures bytes == old(bytes) + chunk
      // a line being redrawn shows what the open line was at some point since the last line ended
      ensures Redrawing(log.calls) && calls < |log.calls| ==>
        && drawn <= bytes && Lines(Closed(drawn)) == Lines(Closed(bytes))
        && IsText(log.calls[|log.calls| - 1].line, Resolve(Open(drawn)))
    {
      hide Valid, Redrawing, Lines, Closed, IsText, Resolve, Open;
      for i := 0 to |chunk|
        invariant Valid() && log.lines == old(log.lines)
        invariant bytes == old(bytes) + chunk[..i]
      {
        Take(chunk[i], due[i]);
        assert chunk[..i + 1] == chunk[..i] + [chunk[i]];
      }
      assert chunk[..|chunk|] == chunk;
      LastDrawing();
    }

    lemma LastDrawing()
      requires Valid()
      ensures Redrawing(log.calls) && calls < |log.calls| ==>
        && drawn <= bytes && Lines(Closed(drawn)) == Lines(Closed(bytes))
        && IsText(log.calls[|log.calls| - 1].line, Resolve(Open(drawn)))
    {
      hide Redrawing, Lines, Closed, IsText, Resolve, Open;
    }

    /** The end of the stream: an open piece is finished like any other. */
    method Finish()
      requires Valid()
      modifies this, line, log, log.lines
      ensures bytes == old(bytes) && log.lines == old(log.lines)
      ensures Shows(Lines(Pieces(bytes)))
    {
      hide Shows, Lines, Open, Closed, Kept, Resolve, Redraws;
      pendingCr := false;
      EndLine(Open(bytes), Lines(Closed(bytes)));
      AllLines(bytes);
    }
  }

  /** The raw lines of the stream as the panel keeps them. */
  function PanelLines(raws: seq<string>): (r: seq<string>)
    ensures |r| == |raws|
  {
    seq(|raws|, i requires 0 <= i < |raws| => Cut(Shown(raws[i]), LINE_WIDTH - 1))
  }

  /** A line on the panel for a raw one: begun by it, and nothing else unless it ends inside an escape sequence. */
  ghost predicate IsPanelLine(line: string, raw: string) {
    Cut(Shown(raw), LINE_WIDTH - 1) <= line && (!EndsInEscape(UpToNul(raw)) ==> line == Cut(Shown(raw), LINE_WIDTH - 1))
  }

  lemma TextsOnPanel(cleans: seq<string>, raws: seq<string>)
    requires AreTexts(cleans, raws)
    ensures |OnPanel(cleans)| == |raws|
    ensures forall i :: 0 <= i < |raws| ==> IsPanelLine(OnPanel(cleans)[i], raws[i])
  {
    hide Strip, EndsInEscape;
    forall i | 0 <= i < |raws|
      ensures IsPanelLine(OnPanel(cleans)[i], raws[i])
    {
      assert IsText(cleans[i], raws[i]);
    }
  }

  /** Exactly the declared lines, when none of them ends inside an escape sequence. */
  lemma AllDeclared(lines: seq<string>, raws: seq<string>)
    requires |lines| == |raws| && forall i :: 0 <= i < |raws| ==> IsPanelLine(lines[i], raws[i])
    requires forall i :: 0 <= i < |raws| ==> !EndsInEscape(UpToNul(raws[i]))
    ensures lines == PanelLines(raws)
  {
    hide Shown, EndsInEscape;
    assert forall i :: 0 <= i < |raws| ==> lines[i] == PanelLines(raws)[i];
  }

  /**
   A finished stream in chunks of any size: the panel gains one line for each declared
   line, each as declared unless it ends inside an escape sequence.
  */
  method StreamToPanel(log: Log, chunks: seq<string>, due: seq<seq<bool>>, height: nat) returns (rows: seq<string>)
    requires log.Valid()
    requires |due| == |chunks| && forall i :: 0 <= i < |chunks| ==> |due[i]| == |chunks[i]|
    modifies log, log.lines
    ensures rows == Panel(log.calls, height)
    ensures Gains(old(Appended(log.calls)), Appended(log.calls), Lines(Pieces(Concat(chunks))))
    // colours come off: what was written between them is what the panel gains
    ensures forall lines: seq<seq<Part>> ::
      (forall i :: 0 <= i < |lines| ==> Colourful(lines[i])) && Concat(chunks) == SentCrlf(Texts(lines)) ==>
        Appended(log.calls) == old(Appended(log.calls)) + PlainTexts(lines)
  {
    var r := new Reader(log);
    FeedAll(r, chunks, due);
    r.Finish();
    rows := log.Redraw(height, 1);
    hide Lines, Pieces, OnPanel, AreTexts, Panel, Gains;
    TextsGain(r.before, r.emitted, Lines(Pieces(Concat(chunks))));
    forall lines: seq<seq<Part>> |
      (forall i :: 0 <= i < |lines| ==> Colourful(lines[i])) && Concat(chunks) == SentCrlf(Texts(lines))
      ensures Appended(log.calls) == old(Appended(log.calls)) + PlainTexts(lines)
    {
      ColoursGone(old(Appended(log.calls)), Appended(log.calls), lines);
    }
  }

  /** A line of plain characters and colours that fits the buffer and, without its colours, the panel. */
  predicate Colourful(line: seq<Part>) {
    && (forall i :: 0 <= i < |line| ==> Written(line[i]))
    && 0 < |Text(line)| <= 2047 && |PlainText(line)| <= 511
  }

  function Texts(lines: seq<seq<Part>>): (r: seq<string>)
    ensures |r| == |lines|
  {
    seq(|lines|, i requires 0 <= i < |lines| => Text(lines[i]))
  }

  function PlainTexts(lines: seq<seq<Part>>): (r: seq<string>)
    ensures |r| == |lines|
  {
    seq(|lines|, i requires 0 <= i < |lines| => PlainText(lines[i]))
  }

  lemma ColourGone(line: seq<Part>)
    requires Colourful(line)
    ensures Sendable(Text(line)) && !EndsInEscape(UpToNul(Text(line)))
    ensures Cut(Shown(Text(line)), LINE_WIDTH - 1) == PlainText(line)
  {
    hide Strip, EndsInEscape, Text, PlainText, Written;
    StripsColours(line);
    assert UpToNul(Text(line)) == Text(line);
  }

  lemma ColoursGone(was: seq<string>, now: seq<string>, lines: seq<seq<Part>>)
    requires forall i :: 0 <= i < |lines| ==> Colourful(lines[i])
    requires Gains(was, now, Lines(Pieces(SentCrlf(Texts(lines)))))
    ensures now == was + PlainTexts(lines)
  {
    hide EndsInEscape, Shown, Lines, Pieces, SentCrlf, Closed, Open, Resolve, Colourful, IsPanelLine;
    var texts := Texts(lines);
    forall i | 0 <= i < |lines|
      ensures Sendable(texts[i]) && !EndsInEscape(UpToNul(texts[i]))
      ensures PanelLines(texts)[i] == PlainText(lines[i])
    {
      ColourGone(lines[i]);
    }
    CrlfRoundTrip(texts);
    AllLines(SentCrlf(texts));
    AtStart();
    assert texts + Kept("") == texts;
    assert PanelLines(texts) == PlainTexts(lines);
  }

  /** One line more for each raw line, begun by what it declares, and just that unless it ends inside a sequence. */
  ghost predicate Gains(was: seq<string>, now: seq<string>, raws: seq<string>) {
    && was <= now && |now| == |was| + |raws|
    && (forall i :: 0 <= i < |raws| ==> IsPanelLine(now[|was| + i], raws[i]))
    && ((forall i :: 0 <= i < |raws| ==> !EndsInEscape(UpToNul(raws[i]))) ==> now == was + PanelLines(raws))
  }

  lemma TextsGain(was: seq<string>, cleans: seq<string>, raws: seq<string>)
    requires AreTexts(cleans, raws)
    ensures Gains(was, was + OnPanel(cleans), raws)
  {
    hide EndsInEscape, OnPanel, PanelLines, IsPanelLine, AreTexts;
    TextsOnPanel(cleans, raws);
    var lines := OnPanel(cleans);
    assert forall i :: 0 <= i < |raws| ==> (was + lines)[|was| + i] == lines[i];
    if forall i :: 0 <= i < |raws| ==> !EndsInEscape(UpToNul(raws[i])) {
      AllDeclared(lines, raws);
    }
  }

  method FeedAll(r: Reader, chunks: seq<string>, due: seq<seq<bool>>)
    requires r.Valid() && r.bytes == ""
    requires |due| == |chunks| && forall i :: 0 <= i < |chunks| ==> |due[i]| == |chunks[i]|
    modifies r, r.line, r.log, r.log.lines
    ensures r.Valid() && r.log.lines == old(r.log.lines) && r.bytes == Concat(chunks)
  {
    hide r.Valid;
    for k := 0 to |chunks|
      invariant r.Valid() && r.log.lines == old(r.log.lines)
      invariant r.bytes == Concat(chunks[..k])
    {
      assert chunks[..k + 1][..k] == chunks[..k];
      r.Read(chunks[k], due[k]);
    }
    assert chunks[..|chunks|] == chunks;
  }

  function Concat(chunks: seq<string>): string {
    if chunks == [] then "" else Concat(chunks[..|chunks| - 1]) + chunks[|chunks| - 1]
  }
}
