/** The build's panel: a ring of finished lines, one line still being redrawn, and the tail of a log file. */
module BuildLog {
  import opened Arithmetic
  import opened Ring

  const MAX_LINES := 2000
  const LINE_WIDTH := 512

  // ---- what the panel should show, from the whole history of calls ----

  datatype Call = Append(line: string) | Update(line: string)

  function Appended(calls: seq<Call>): (lines: seq<string>)
    ensures |lines| <= |calls|
  {
    if calls == [] then []
    else
      var c := calls[|calls| - 1];
      Appended(calls[..|calls| - 1]) + (if c.Append? then [Cut(c.line, LINE_WIDTH - 1)] else [])
  }

  lemma AppendedNext(calls: seq<Call>, c: Call)
    ensures Appended(calls + [c]) == Appended(calls) + (if c.Append? then [Cut(c.line, LINE_WIDTH - 1)] else [])
  {
    assert (calls + [c])[..|calls|] == calls;
  }

  lemma SlotNext(n: nat)
    ensures n < MAX_LINES ==> n % MAX_LINES == n
    ensures (n % MAX_LINES + 1) % MAX_LINES == (n + 1) % MAX_LINES
  {
  }

  predicate Redrawing(calls: seq<Call>) {
    calls != [] && calls[|calls| - 1].Update?
  }

  /** The rows of a panel `height` rows high. */
  function Panel(calls: seq<Call>, height: int): seq<string> {
    if height <= 0 then []
    else if Redrawing(calls) then
      LastN(Appended(calls), Min(height - 1, MAX_LINES)) + [Cut(calls[|calls| - 1].line, LINE_WIDTH - 1)]
    else LastN(Appended(calls), Min(height, MAX_LINES))
  }

  class Log {
    var lines: array<string>
    var count: nat
    var nextSlot: nat
    var provisional: string
    var hasProvisional: bool
    ghost var calls: seq<Call>

    ghost predicate Valid()
      reads this, lines
    {
      var h := Appended(calls);
      && lines.Length == MAX_LINES
      && count == Min(|h|, MAX_LINES)
      && nextSlot == (if |h| < MAX_LINES then 0 else |h| % MAX_LINES)
      && Holds(lines[..], h)
      && hasProvisional == Redrawing(calls)
      && (hasProvisional ==> provisional == Cut(calls[|calls| - 1].line, LINE_WIDTH - 1))
    }

    constructor ()
      ensures Valid() && calls == [] && fresh(lines)
    {
      lines := new string[MAX_LINES](_ => "");
      count, nextSlot := 0, 0;
      provisional, hasProvisional := "", false;
      calls := [];
    }

    method AppendLine(line: string)
      requires Valid()
      modifies this, lines
      ensures Valid() && lines == old(lines)
      ensures calls == old(calls) + [Append(line)] && !Redrawing(calls)
      ensures Appended(calls) == old(Appended(calls)) + [Cut(line, LINE_WIDTH - 1)]
    {
      hide Holds, Cut, Appended;
      ghost var h := Appended(calls);
      AppendedNext(calls, Append(line));
      SlotNext(|h|);
      var slot := if count < MAX_LINES then count else nextSlot;
      Push(lines[..], h, Cut(line, LINE_WIDTH - 1));
      ghost var was := lines[..];
      lines[slot] := Cut(line, LINE_WIDTH - 1);
      assert lines[..] == was[|h| % MAX_LINES := Cut(line, LINE_WIDTH - 1)];
      if count < MAX_LINES {
        count := count + 1;
      } else {
        nextSlot := (nextSlot + 1) % MAX_LINES;
      }
      hasProvisional := false;
      calls := calls + [Append(line)];
    }

    method UpdateProvisional(line: string)
      requires Valid()
      modifies this
      ensures Valid() && lines == old(lines)
      ensures calls == old(calls) + [Update(line)] && Redrawing(calls)
      ensures Appended(calls) == old(Appended(calls))
    {
      AppendedNext(calls, Update(line));
      provisional := Cut(line, LINE_WIDTH - 1);
      hasProvisional := true;
      calls := calls + [Update(line)];
    }

    /** The line `i` places after the oldest one kept. */
    method Row(i: nat) returns (row: string)
      requires Valid() && i < count
      ensures row == Appended(calls)[|Appended(calls)| - count + i]
    {
      ReadSlot(lines[..], Appended(calls), count, nextSlot, i);
      var slot := if count < MAX_LINES then i else (nextSlot + i) % MAX_LINES;
      row := lines[slot];
    }

    /** The last `height` lines, oldest first. */
    method Committed(height: nat) returns (rows: seq<string>)
      requires Valid()
      ensures rows == LastN(Appended(calls), Min(height, MAX_LINES))
    {
      hide Holds, Appended;
      rows := [];
      var start := if count < height then 0 else count - height;
      ghost var want := LastN(Appended(calls), count - start);
      for i := start to count
        invariant rows == want[..i - start]
      {
        var row := Row(i);
        assert row == want[i - start];
        rows := rows + [row];
      }
    }

    /** The rows drawn, top to bottom, in a content box of this size. */
    method Redraw(contentHeight: int, contentWidth: int) returns (rows: seq<string>)
      requires Valid()
      ensures rows == if contentWidth <= 0 then [] else Panel(calls, contentHeight)
      // no more rows than fit: the last finished lines and, while one is being redrawn, that one under them
      ensures contentWidth > 0 && contentHeight > 0 ==>
        var h := Appended(calls);
        if calls != [] && calls[|calls| - 1].Update? then
          rows == h[|h| - Min(|h|, Min(contentHeight - 1, 2000))..] + [Cut(calls[|calls| - 1].line, 511)]
        else rows == h[|h| - Min(|h|, Min(contentHeight, 2000))..]
    {
      rows := [];
      if contentHeight > 0 && contentWidth > 0 {
        rows := Committed(if hasProvisional then contentHeight - 1 else contentHeight);
        if hasProvisional {
          rows := rows + [provisional];
        }
      }
    }
  }

  /** The `i`-th slot from the oldest holds the `i`-th of the last `count` lines. */
  lemma ReadSlot(slots: seq<string>, h: seq<string>, count: nat, nextSlot: nat, i: nat)
    requires Holds(slots, h) && count == Min(|h|, |slots|) && i < count
    requires nextSlot == if |h| < |slots| then 0 else |h| % |slots|
    ensures slots[if count < |slots| then i else (nextSlot + i) % |slots|] == h[|h| - count + i]
  {
    if |h| < |slots| {
      DivModUnique(0, i, |slots|);
    } else {
      FromOldest(|h|, |slots|, i);
    }
    assert slots[(|h| - count + i) % |slots|] == h[|h| - count + i];
  }

  // ---- the tail of a log file ----

  const TAIL := 15
  const FILE_LINE := 1024

  /** How many characters one buffered read takes: through the first line feed, or a full buffer. */
  function ReadLength(s: string): (n: nat)
    ensures n <= |s| && n < FILE_LINE && (s != "" ==> 0 < n)
    ensures forall i :: 0 <= i < n - 1 ==> s[i] != '\n'
    ensures 0 < n < |s| && n < FILE_LINE - 1 ==> s[n - 1] == '\n'
  {
    ReadFrom(s, 0)
  }

  function ReadFrom(s: string, i: nat): (n: nat)
    requires i <= |s| && i < FILE_LINE
    requires forall k :: 0 <= k < i ==> s[k] != '\n'
    ensures i <= n <= |s| && n < FILE_LINE && (i < |s| && i < FILE_LINE - 1 ==> i < n)
    ensures forall k :: 0 <= k < n - 1 ==> s[k] != '\n'
    ensures n < |s| && n < FILE_LINE - 1 ==> 0 < n && s[n - 1] == '\n'
    decreases |s| - i
  {
    if i == |s| || i == FILE_LINE - 1 then i
    else if s[i] == '\n' then i + 1
    else ReadFrom(s, i + 1)
  }

  predicate IsEol(c: char) {
    c == '\n' || c == '\r'
  }

  function UpToNul(s: string): (r: string)
    ensures r <= s && '\0' !in r && (|r| < |s| ==> s[|r|] == '\0')
  {
    if s == "" || s[0] == '\0' then "" else [s[0]] + UpToNul(s[1..])
  }

  function TrimEol(s: string): (r: string)
    ensures r <= s && (r == "" || !IsEol(r[|r| - 1]))
    ensures forall i :: |r| <= i < |s| ==> IsEol(s[i])
  {
    if s != "" && IsEol(s[|s| - 1]) then TrimEol(s[..|s| - 1]) else s
  }

  /** A file's lines, as a 1024-byte buffer reads them. */
  function FileLines(s: string): seq<string>
    decreases |s|
  {
    if s == "" then [] else [TrimEol(UpToNul(s[..ReadLength(s)]))] + FileLines(s[ReadLength(s)..])
  }

  // ---- a file as it is written ----

  /** Lines, each ended with a line feed, with a carriage return before it or not. */
  function FileText(lines: seq<string>, crlf: bool): string {
    if lines == [] then "" else lines[0] + End(crlf) + FileText(lines[1..], crlf)
  }

  /** A line that one buffered read takes whole. */
  predicate Readable(line: string) {
    '\n' !in line && '\r' !in line && '\0' !in line && |line| <= 1021
  }

  lemma {:induction false} ReadsTo(s: string, i: nat, n: nat)
    requires i <= n < |s| && n < FILE_LINE - 1 && s[n] == '\n'
    requires forall k :: 0 <= k < n ==> s[k] != '\n'
    ensures ReadFrom(s, i) == n + 1
    decreases n - i
  {
    if i < n {
      ReadsTo(s, i + 1, n);
    }
  }

  lemma TrimsOne(s: string, c: char)
    requires IsEol(c)
    ensures TrimEol(s + [c]) == TrimEol(s)
  {
    assert (s + [c])[..|s|] == s;
  }

  lemma TrimsNothing(s: string)
    requires s == "" || !IsEol(s[|s| - 1])
    ensures TrimEol(s) == s
  {
  }

  lemma NoNul(s: string)
    requires '\0' !in s
    ensures UpToNul(s) == s
  {
  }

  function End(crlf: bool): string {
    if crlf then "\r\n" else "\n"
  }

  lemma TrimsEnd(line: string, crlf: bool)
    requires Readable(line)
    ensures TrimEol(UpToNul(line + End(crlf))) == line
  {
    hide UpToNul, TrimEol;
    NoNul(line + End(crlf));
    TrimsNothing(line);
    TrimsOne(line, '\n');
    if crlf {
      TrimsOne(line, '\r');
      TrimsOne(line + ['\r'], '\n');
      assert line + End(crlf) == line + ['\r'] + ['\n'];
    }
  }

  /** A line longer than the buffer comes in pieces of 1023. */
  lemma {:induction false} ReadsBuffer(s: string, i: nat)
    requires i <= 1023 < |s| && forall k :: 0 <= k < 1023 ==> s[k] != '\n'
    ensures ReadFrom(s, i) == 1023
    decreases 1023 - i
  {
    if i < 1023 {
      ReadsBuffer(s, i + 1);
    }
  }

  /** The first read takes the first line with its end. */
  lemma FirstRead(line: string, crlf: bool, rest: string)
    requires Readable(line)
    ensures var s, t := line + End(crlf) + rest, line + End(crlf);
      s != "" && ReadLength(s) == |t| && s[..|t|] == t && s[|t|..] == rest
  {
    var s, t := line + End(crlf) + rest, line + End(crlf);
    hide ReadFrom;
    assert forall k :: 0 <= k < |line| ==> s[k] == line[k];
    assert s[|t| - 1] == '\n' && (crlf ==> s[|line|] == '\r');
    ReadsTo(s, 0, |t| - 1);
  }

  /** A file of such lines is read as those lines, however they end. */
  lemma {:induction false} FileReadsBack(lines: seq<string>, crlf: bool)
    requires forall i :: 0 <= i < |lines| ==> Readable(lines[i])
    ensures FileLines(FileText(lines, crlf)) == lines
    decreases |lines|
  {
    hide TrimEol, UpToNul, ReadLength, End, Readable;
    if lines != [] {
      FirstRead(lines[0], crlf, FileText(lines[1..], crlf));
      TrimsEnd(lines[0], crlf);
      FileReadsBack(lines[1..], crlf);
      assert lines == [lines[0]] + lines[1..];
    }
  }

  function Indented(lines: seq<string>): (r: seq<string>)
    ensures |r| == |lines|
  {
    seq(|lines|, i requires 0 <= i < |lines| => Cut("    " + lines[i], 1023))
  }

  method Trim(s: string) returns (line: string)
    ensures line == TrimEol(s)
  {
    line := s;
    while |line| > 0 && IsEol(line[|line| - 1])
      invariant TrimEol(line) == TrimEol(s)
    {
      line := line[..|line| - 1];
    }
  }

  lemma Shift<T>(a: seq<T>, x: T, b: seq<T>)
    ensures a + [x] + b == a + ([x] + b)
  {
  }

  method PutSlot(lines: array<string>, total: nat, ghost done: seq<string>, line: string)
    requires lines.Length == TAIL && Holds(lines[..], done) && total == |done|
    modifies lines
    ensures Holds(lines[..], done + [line])
  {
    Push(lines[..], done, line);
    ghost var was := lines[..];
    lines[total % TAIL] := line;
    assert lines[..] == was[total % TAIL := line];
  }

  /** Reads the file through a ring of fifteen slots. */
  method FillTail(file: string) returns (lines: array<string>, total: nat)
    ensures fresh(lines) && lines.Length == TAIL
    ensures total == |FileLines(file)| && Holds(lines[..], FileLines(file))
  {
    lines := new string[TAIL](_ => "");
    total := 0;
    var rest := file;
    ghost var done: seq<string> := [];
    while rest != ""
      invariant done + FileLines(rest) == FileLines(file)
      invariant total == |done| && Holds(lines[..], done)
      decreases |rest|
    {
      var n := ReadLength(rest);
      var line := Trim(UpToNul(rest[..n]));
      PutSlot(lines, total, done, line);
      total := total + 1;
      ghost var before := done;
      done := done + [line];
      Shift(before, line, FileLines(rest[n..]));
      rest := rest[n..];
    }
    assert done == FileLines(file);
  }

  method TailRow(lines: array<string>, total: nat, ghost done: seq<string>, i: nat) returns (row: string)
    requires lines.Length == TAIL && Holds(lines[..], done) && total == |done| && i < Min(total, TAIL)
    ensures row == done[total - Min(total, TAIL) + i]
  {
    var start := if total < TAIL then 0 else total % TAIL;
    ReadSlot(lines[..], done, Min(total, TAIL), start, i);
    if total < TAIL {
      DivModUnique(0, i, TAIL);
    }
    row := lines[(start + i) % TAIL];
  }

  /** The last fifteen lines of the file, in order, each indented. */
  method PrintLogTail(file: string) returns (out: seq<string>)
    ensures out == Indented(LastN(FileLines(file), TAIL))
    ensures var lines := FileLines(file);
      && |out| == Min(|lines|, 15)
      && forall i :: 0 <= i < |out| ==> out[i] == Cut("    " + lines[|lines| - |out| + i], 1023)
  {
    hide Holds, FileLines, Cut;
    var lines, total := FillTail(file);
    ghost var last := LastN(FileLines(file), TAIL);
    var count := if total < TAIL then total else TAIL;
    ghost var slots := lines[..];
    out := [];
    for i := 0 to count
      invariant lines[..] == slots
      invariant |out| == i && forall j :: 0 <= j < i ==> out[j] == Cut("    " + last[j], 1023)
    {
      var row := TailRow(lines, total, FileLines(file), i);
      out := out + [Cut("    " + row, 1023)];
    }
  }
}
