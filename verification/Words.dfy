/** Text as C reads and prints it: words between blanks, characters searched for, decimal numbers. */
module Words {
  import opened Arithmetic

  const NUL := '\0'

  predicate Blank(c: char) {
    c == ' ' || c == '\t' || c == '\r' || c == '\n'
  }

  ghost predicate Plain(s: string) {
    forall i :: 0 <= i < |s| ==> !Blank(s[i])
  }

  /** The index of the first `c`, or the length where there is none. */
  function Find(s: string, c: char): (i: nat)
    ensures i <= |s| && (i < |s| ==> s[i] == c) && forall k :: 0 <= k < i ==> s[k] != c
  {
    if s == "" || s[0] == c then 0 else 1 + Find(s[1..], c)
  }

  lemma FindIs(s: string, c: char, rest: string)
    requires c !in s
    ensures Find(s + [c] + rest, c) == |s|
  {
    var t := s + [c] + rest;
    assert t[|s|] == c;
    assert forall k :: 0 <= k < |s| ==> t[k] == s[k];
  }

  lemma FindNone(s: string, c: char)
    requires c !in s
    ensures Find(s, c) == |s|
  {
  }

  function At(s: string, i: nat): char {
    if i < |s| then s[i] else NUL
  }

  // ---- words ----

  /** How far the first word reaches from the start of `s`. */
  function WordLength(s: string): (n: nat)
    ensures n <= |s| && (n < |s| ==> Blank(s[n])) && forall k :: 0 <= k < n ==> !Blank(s[k])
  {
    if s == "" || Blank(s[0]) then 0 else 1 + WordLength(s[1..])
  }

  function Tokens(s: string): seq<string>
    decreases |s|
  {
    if s == "" then []
    else if Blank(s[0]) then Tokens(s[1..])
    else [s[..WordLength(s)]] + Tokens(s[WordLength(s)..])
  }

  lemma TokensWord(w: string, rest: string)
    requires w != "" && Plain(w) && (rest == "" || Blank(rest[0]))
    ensures Tokens(w + rest) == [w] + Tokens(rest)
  {
    var s := w + rest;
    assert s[0] == w[0];
    assert forall k :: 0 <= k < |w| ==> s[k] == w[k];
    assert rest != "" ==> s[|w|] == rest[0];
    assert WordLength(s) == |w|;
    assert s[..|w|] == w && s[|w|..] == rest;
  }

  lemma TokensBlank(b: char, rest: string)
    requires Blank(b)
    ensures Tokens([b] + rest) == Tokens(rest)
  {
    assert ([b] + rest)[1..] == rest;
  }

  /** Spaces, tabs and line ends part words, wherever they stand. */
  lemma {:induction false} PartsWords(a: string, c: char, b: string)
    requires c in {' ', '\t', '\r', '\n'}
    ensures Tokens(a + [c] + b) == Tokens(a) + Tokens(b)
    decreases |a|
  {
    hide Tokens, WordLength;
    NothingParted();
    var s := a + [c] + b;
    if a == "" {
      assert s == [c] + b;
      TokensBlank(c, b);
    } else if Blank(a[0]) {
      assert s == [a[0]] + (a[1..] + [c] + b) && a == [a[0]] + a[1..];
      TokensBlank(a[0], a[1..] + [c] + b);
      TokensBlank(a[0], a[1..]);
      PartsWords(a[1..], c, b);
    } else {
      var n := WordLength(a);
      FirstWord(a);
      assert s == a[..n] + (a[n..] + [c] + b) && a == a[..n] + a[n..];
      TokensWord(a[..n], a[n..] + [c] + b);
      TokensWord(a[..n], a[n..]);
      PartsWords(a[n..], c, b);
    }
  }

  lemma NothingParted()
    ensures Tokens("") == []
  {
  }

  lemma FirstWord(a: string)
    requires a != "" && !Blank(a[0])
    ensures 0 < WordLength(a) && Plain(a[..WordLength(a)])
    ensures a[WordLength(a)..] == "" || Blank(a[WordLength(a)..][0])
  {
  }

  /** No word is empty or holds a blank, so a second split changes nothing. */
  lemma {:induction false} TokensPlain(s: string)
    ensures forall t :: t in Tokens(s) ==> t != "" && Plain(t)
    decreases |s|
  {
    if s != "" {
      if Blank(s[0]) {
        TokensPlain(s[1..]);
      } else {
        TokensPlain(s[WordLength(s)..]);
      }
    }
  }

  // ---- lists between commas ----

  function Commas(items: seq<string>): string {
    if items == [] then "" else if |items| == 1 then items[0] else items[0] + "," + Commas(items[1..])
  }

  lemma {:induction false} CommasNext(items: seq<string>, item: string)
    ensures Commas(items + [item]) == if items == [] then item else Commas(items) + "," + item
  {
    if items != [] {
      CommasNext(items[1..], item);
      assert (items + [item])[1..] == items[1..] + [item];
    }
  }

  lemma {:induction false} CommasPlain(items: seq<string>)
    requires forall i :: 0 <= i < |items| ==> Plain(items[i])
    ensures Plain(Commas(items))
  {
    if |items| > 1 {
      CommasPlain(items[1..]);
    }
  }

  lemma {:induction false} CommasLength(items: seq<string>, width: nat)
    requires forall i :: 0 <= i < |items| ==> |items[i]| <= width
    ensures |Commas(items)| <= |items| * (width + 1)
  {
    if |items| > 1 {
      CommasLength(items[1..], width);
      assert (|items| - 1) * (width + 1) == |items| * (width + 1) - (width + 1);
    } else if |items| == 1 {
      assert |items| * (width + 1) == width + 1;
    }
  }

  // ---- numbers ----

  predicate Digit(c: char) {
    '0' <= c <= '9'
  }

  function DigitOf(n: nat): (c: char)
    requires n < 10
    ensures Digit(c) && ValueOf(c) == n
  {
    '0' + n as char
  }

  function ValueOf(c: char): nat
    requires Digit(c)
  {
    (c - '0') as nat
  }

  function Digits(n: nat): (s: string)
    ensures s != "" && forall i :: 0 <= i < |s| ==> Digit(s[i])
  {
    if n < 10 then [DigitOf(n)] else Digits(n / 10) + [DigitOf(n % 10)]
  }

  /** The number that leading digits go on to make of `so`. */
  function Number(s: string, so: nat): nat {
    if s == "" || !Digit(s[0]) then so else Number(s[1..], 10 * so + ValueOf(s[0]))
  }

  lemma {:induction false} DigitsNumber(n: nat, rest: string)
    ensures Number(Digits(n) + rest, 0) == Number(rest, n)
  {
    var last := [DigitOf(n % 10)] + rest;
    if n < 10 {
      assert Digits(n) + rest == last && last[1..] == rest;
    } else {
      DigitsNumber(n / 10, last);
      assert Digits(n) + rest == Digits(n / 10) + last;
      assert last[1..] == rest;
    }
  }

  predicate Space(c: char) {
    c == ' ' || '\t' <= c <= '\r'
  }

  /** C's `atoi`. */
  function Atoi(s: string): int {
    if s == "" then 0
    else if Space(s[0]) then Atoi(s[1..])
    else if s[0] == '-' then 0 - (Number(s[1..], 0) as int)
    else if s[0] == '+' then Number(s[1..], 0)
    else Number(s, 0)
  }

  lemma AtoiDigits(n: nat, rest: string)
    requires rest == "" || !Digit(rest[0])
    ensures Atoi(Digits(n) + rest) == n
  {
    assert Digit((Digits(n) + rest)[0]);
    DigitsNumber(n, rest);
  }

  /** A sign in front, white space before that, and anything that is no digit behind. */
  lemma AtoiSigned(n: nat, rest: string)
    requires rest == "" || !Digit(rest[0])
    ensures Atoi(['-'] + (Digits(n) + rest)) == 0 - n && Atoi(['+'] + (Digits(n) + rest)) == n
    ensures forall c, t :: c in {' ', '\t', '\n', '\r'} ==> Atoi([c] + t) == Atoi(t)
  {
    hide Digits, Number;
    DigitsNumber(n, rest);
    NumberEnds(rest, n);
    var t := Digits(n) + rest;
    assert (['-'] + t)[1..] == t && (['+'] + t)[1..] == t;
    forall c, t | c in {' ', '\t', '\n', '\r'}
      ensures Atoi([c] + t) == Atoi(t)
    {
      assert ([c] + t)[1..] == t;
    }
  }

  lemma NumberEnds(rest: string, so: nat)
    requires rest == "" || !Digit(rest[0])
    ensures Number(rest, so) == so
  {
  }

  /** The digits of a fraction: each a tenth of the one before. */
  function Fraction(s: string): real {
    if s == "" || !Digit(s[0]) then 0.0 else (ValueOf(s[0]) as real + Fraction(s[1..])) / 10.0
  }

  function LeadingDigits(s: string): (n: nat)
    ensures n <= |s| && (n < |s| ==> !Digit(s[n])) && forall k :: 0 <= k < n ==> Digit(s[k])
  {
    if s == "" || !Digit(s[0]) then 0 else 1 + LeadingDigits(s[1..])
  }

  function Magnitude(s: string): real {
    var n := LeadingDigits(s);
    Number(s, 0) as real + (if n < |s| && s[n] == '.' then Fraction(s[n + 1..]) else 0.0)
  }

  /** C's `atof`, in decimal notation. */
  function Atof(s: string): real {
    if s == "" then 0.0
    else if Space(s[0]) then Atof(s[1..])
    else if s[0] == '-' then -Magnitude(s[1..])
    else if s[0] == '+' then Magnitude(s[1..])
    else Magnitude(s)
  }

  /** A number of hundredths, to two places. */
  function TwoPlaces(hundredths: nat): string {
    Digits(hundredths / 100) + "." + [DigitOf(hundredths / 10 % 10)] + [DigitOf(hundredths % 10)]
  }

  lemma AtofTwoPlaces(hundredths: nat)
    ensures Atof(TwoPlaces(hundredths)) == hundredths as real / 100.0
  {
    var whole, d, e := hundredths / 100, hundredths / 10 % 10, hundredths % 10;
    var tail := [DigitOf(d)] + [DigitOf(e)];
    hide Digits, Fraction, Atof;
    assert TwoPlaces(hundredths) == Digits(whole) + ("." + tail);
    AtofParts(whole, tail);
    FractionOfTwo(d, e);
    Places(hundredths);
  }

  /** A volume without a point. */
  lemma AtofWhole(n: nat, rest: string)
    requires rest == "" || (!Digit(rest[0]) && rest[0] != '.')
    ensures Atof(Digits(n) + rest) == n as real && Atof(['-'] + (Digits(n) + rest)) == -(n as real)
  {
    hide Digits, Number, LeadingDigits, Fraction;
    var s := Digits(n) + rest;
    DigitsNumber(n, rest);
    NumberEnds(rest, n);
    DigitsLead(Digits(n), rest);
    assert rest != "" ==> s[|Digits(n)|] == rest[0];
    assert Digit(s[0]) && s[0] == Digits(n)[0];
    assert (['-'] + s)[1..] == s;
  }

  lemma DigitsLead(d: string, rest: string)
    requires forall i :: 0 <= i < |d| ==> Digit(d[i])
    requires rest == "" || !Digit(rest[0])
    ensures LeadingDigits(d + rest) == |d|
  {
    var n := LeadingDigits(d + rest);
    assert forall k :: 0 <= k < |d| ==> (d + rest)[k] == d[k];
    assert rest != "" ==> (d + rest)[|d|] == rest[0];
  }

  lemma Places(n: nat)
    ensures n as real / 100.0 == (n / 100) as real + (10 * (n / 10 % 10) + n % 10) as real / 100.0
  {
    Parts(n / 100, 10 * (n / 10 % 10) + n % 10);
    assert n == 100 * (n / 100) + (10 * (n / 10 % 10) + n % 10);
  }

  lemma Parts(whole: nat, part: nat)
    ensures (100 * whole + part) as real / 100.0 == whole as real + part as real / 100.0
  {
  }

  lemma AtofParts(whole: nat, tail: string)
    ensures Atof(Digits(whole) + ("." + tail)) == whole as real + Fraction(tail)
  {
    hide Digits, Fraction;
    var s, n := Digits(whole) + ("." + tail), |Digits(whole)|;
    assert s[n] == '.' && s[n + 1..] == tail && s[0] == Digits(whole)[0];
    assert forall k :: 0 <= k < n ==> s[k] == Digits(whole)[k];
    assert LeadingDigits(s) == n;
    DigitsNumber(whole, "." + tail);
  }

  lemma FractionOfTwo(d: nat, e: nat)
    requires d < 10 && e < 10
    ensures Fraction([DigitOf(d)] + [DigitOf(e)]) == (10 * d + e) as real / 100.0
  {
    var tail := [DigitOf(d)] + [DigitOf(e)];
    assert tail[1..] == [DigitOf(e)] && tail[1..][1..] == "";
    assert Fraction(tail[1..]) == e as real / 10.0;
  }

  lemma DigitsPlain(n: nat)
    ensures Plain(Digits(n))
  {
  }

  lemma DigitsLength(n: nat)
    ensures n < 10 ==> |Digits(n)| == 1
    ensures n < 100 ==> |Digits(n)| <= 2
  {
  }
}
