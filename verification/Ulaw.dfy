/** The 8-bit code of a digital call: G.711 mu-law, as the phone line uses it. */
module Ulaw {
  import opened Arithmetic

  const CLIP := 32635
  const BIAS := 132

  function Pow2(n: nat): (p: nat)
    ensures 1 <= p
  {
    if n == 0 then 1 else 2 * Pow2(n - 1)
  }

  function Abs(x: int): nat {
    if x < 0 then -x else x
  }

  function Clipped(pcm: int): int {
    if pcm > CLIP then CLIP else if pcm < -CLIP then -CLIP else pcm
  }

  /** A clipped magnitude, biased into the segments. */
  function Biased(pcm: int): (b: nat)
    ensures BIAS <= b < 32768 && b == Abs(Clipped(pcm)) + BIAS
  {
    Min(Abs(pcm), CLIP) + BIAS
  }

  /** The segment: segment `e` is the magnitudes from `Pow2(e + 7)` up to the next. */
  function Segment(b: nat): (e: nat)
    requires 128 <= b < 32768
    ensures e <= 7 && Pow2(e + 7) <= b < Pow2(e + 8)
  {
    Powers();
    if b >= 16384 then 7 else if b >= 8192 then 6 else if b >= 4096 then 5 else if b >= 2048 then 4
    else if b >= 1024 then 3 else if b >= 512 then 2 else if b >= 256 then 1 else 0
  }

  lemma Powers()
    ensures Pow2(3) == 8 && Pow2(7) == 128 && Pow2(8) == 256 && Pow2(9) == 512 && Pow2(10) == 1024 && Pow2(11) == 2048
    ensures Pow2(12) == 4096 && Pow2(13) == 8192 && Pow2(14) == 16384 && Pow2(15) == 32768
  {
    assert Pow2(3) == 8;
    assert Pow2(5) == 32;
    assert Pow2(7) == 128;
    assert Pow2(9) == 512;
    assert Pow2(11) == 2048;
    assert Pow2(13) == 8192;
    assert Pow2(15) == 32768;
  }

  /** The width of a step of segment `e`. */
  function Width(e: nat): (w: nat)
    ensures 8 <= w && w % 2 == 0
  {
    WidthIs(e);
    Pow2(e + 3)
  }

  lemma WidthIs(e: nat)
    ensures Pow2(e + 3) == 8 * Pow2(e)
  {
    assert Pow2(e + 2) == 2 * Pow2(e + 1);
  }

  lemma SegmentIsSixteenWidths(e: nat)
    ensures Pow2(e + 7) == 16 * Width(e) && Pow2(e + 8) == 32 * Width(e)
  {
    assert Pow2(e + 5) == 4 * Pow2(e + 3);
  }

  function Encoded(pcm: int): (u: nat)
    ensures u <= 255
  {
    var b := Biased(pcm);
    var e := Segment(b);
    255 - ((if pcm < 0 then 128 else 0) + 16 * e + b / Width(e) % 16)
  }

  function Decoded(u: nat): int
    requires u <= 255
  {
    var v := 255 - u;
    var e, m := v / 16 % 8, v % 16;
    var x := (8 * m + BIAS) * Pow2(e) - BIAS;
    if v >= 128 then -x else x
  }

  /** The encoder: the mask walks down from the top bit, the exponent with it. */
  method Encode(pcm: int) returns (u: nat)
    ensures u == Encoded(pcm)
  {
    var sign, p := 0, pcm;
    if p < 0 {
      p := -p;
      sign := 128;
    }
    if p > CLIP {
      p := CLIP;
    }
    p := p + BIAS;
    var exponent, mask := 7, 0x4000;
    Powers();
    while p / mask % 2 == 0 && exponent > 0
      invariant 0 <= exponent <= 7 && mask == Pow2(exponent + 7)
      invariant p == Biased(pcm) && p < Pow2(exponent + 8)
      decreases exponent
    {
      BitIsClear(p, mask);
      mask := mask / 2;
      exponent := exponent - 1;
    }
    BitIsClear(p, mask);
    SegmentUnique(p, exponent);
    var mantissa := p / Width(exponent) % 16;
    u := 255 - (sign + 16 * exponent + mantissa);
  }

  lemma BitIsClear(p: nat, mask: nat)
    requires 0 < mask && p < 2 * mask
    ensures p / mask % 2 == 0 <==> p < mask
  {
    if p < mask {
      DivIs(p, 0, mask);
    } else {
      DivIs(p, 1, mask);
    }
  }

  lemma {:induction false} Pow2Monotone(a: nat, b: nat)
    requires a <= b
    ensures Pow2(a) <= Pow2(b)
  {
    if a < b {
      Pow2Monotone(a, b - 1);
    }
  }

  lemma SegmentUnique(b: nat, e: nat)
    requires 128 <= b < 32768 && e <= 7
    requires b < Pow2(e + 8) && (Pow2(e + 7) <= b || e == 0)
    ensures Segment(b) == e
  {
    Powers();
    var f := Segment(b);
    if f < e {
      Pow2Monotone(f + 8, e + 7);
    } else if e < f {
      Pow2Monotone(e + 8, f + 7);
    }
  }

  // ---- the levels ----

  /** The biased level a biased magnitude comes back as: the middle of its step. */
  function Level(b: nat): nat
    requires 128 <= b < 32768
  {
    var w := Width(Segment(b));
    b / w * w + w / 2
  }

  lemma StepOf(b: nat)
    requires 128 <= b < 32768
    ensures var w := Width(Segment(b));
      16 <= b / w < 32 && b / w * w <= b < b / w * w + w && 16 * w <= Level(b) < 32 * w
  {
    hide Segment;
    var e := Segment(b);
    var w := Width(e);
    SegmentIsSixteenWidths(e);
    DivMonotone(16 * w, b, w);
    DivIs(16 * w, 16, w);
    DivBound(b, 32, w);
    MulMonotone(16, b / w, w);
    MulMonotone(b / w, 31, w);
  }

  /** A code word's fields, read back. */
  lemma FieldsReadBack(neg: bool, e: nat, q: nat)
    requires e <= 7 && 16 <= q < 32
    ensures var u := 255 - ((if neg then 128 else 0) + 16 * e + q % 16);
      0 <= u <= 255 && Decoded(u) == (var x := q * Width(e) + Width(e) / 2 - BIAS; if neg then -x else x)
  {
    hide Pow2, Width;
    FieldsOf(neg, e, q);
    WidthOf(e);
    Spread(q - 16, Pow2(e));
  }

  lemma FieldsOf(neg: bool, e: nat, q: nat)
    requires e <= 7 && 16 <= q < 32
    ensures var v := (if neg then 128 else 0) + 16 * e + q % 16;
      0 <= v <= 255 && v % 16 == q - 16 && v / 16 % 8 == e && (v >= 128 <==> neg)
  {
  }

  lemma WidthOf(e: nat)
    ensures Width(e) == 8 * Pow2(e) && Width(e) / 2 == 4 * Pow2(e)
  {
    WidthIs(e);
  }

  lemma Spread(m: nat, p: nat)
    ensures (8 * m + 132) * p == (m + 16) * (8 * p) + 4 * p
  {
  }

  lemma DecodedIsLevel(pcm: int)
    ensures Decoded(Encoded(pcm)) == if pcm < 0 then -(Level(Biased(pcm)) - BIAS) else Level(Biased(pcm)) - BIAS
  {
    hide Decoded, Segment;
    var b := Biased(pcm);
    StepOf(b);
    FieldsReadBack(pcm < 0, Segment(b), b / Width(Segment(b)));
  }

  /** A sample comes back within half a step of its clipped value. */
  lemma HalfStep(pcm: int)
    ensures Abs(Decoded(Encoded(pcm)) - Clipped(pcm)) <= Pow2(Segment(Biased(pcm)) + 2)
  {
    hide Decoded, Encoded, Segment, Biased;
    DecodedIsLevel(pcm);
    StepOf(Biased(pcm));
    var e := Segment(Biased(pcm));
    assert Pow2(e + 3) == 2 * Pow2(e + 2);
  }

  lemma Odd(pcm: int)
    ensures Decoded(Encoded(-pcm)) == -Decoded(Encoded(pcm))
  {
    hide Decoded, Encoded, Level;
    DecodedIsLevel(pcm);
    DecodedIsLevel(-pcm);
    if pcm == 0 {
      assert Level(BIAS) == BIAS by { ZeroLevel(); }
    }
  }

  lemma ZeroLevel()
    ensures Segment(BIAS) == 0 && Width(0) == 8 && Level(BIAS) == BIAS
  {
    Powers();
  }

  lemma LevelMonotone(a: nat, b: nat)
    requires 128 <= a <= b < 32768
    ensures Level(a) <= Level(b)
  {
    hide Segment, Pow2, Width, Level;
    var e, f := Segment(a), Segment(b);
    if e == f {
      SameSegment(a, b);
    } else {
      LevelWithin(a);
      LevelWithin(b);
      if f < e {
        Pow2Monotone(f + 8, e + 7);
      }
      Pow2Monotone(e + 8, f + 7);
    }
  }

  lemma SameSegment(a: nat, b: nat)
    requires 128 <= a <= b < 32768 && Segment(a) == Segment(b)
    ensures Level(a) <= Level(b)
  {
    hide Segment, Width;
    var w := Width(Segment(a));
    DivMonotone(a, b, w);
    MulMonotone(a / w, b / w, w);
  }

  lemma LevelWithin(b: nat)
    requires 128 <= b < 32768
    ensures Pow2(Segment(b) + 7) <= Level(b) < Pow2(Segment(b) + 8)
  {
    hide Segment, Pow2, Width, Level;
    StepOf(b);
    SegmentIsSixteenWidths(Segment(b));
  }

  lemma Monotone(x: int, y: int)
    requires x <= y
    ensures Decoded(Encoded(x)) <= Decoded(Encoded(y))
  {
    DecodedIsLevel(x);
    DecodedIsLevel(y);
    ZeroLevel();
    hide Level, Segment;
    LevelMonotone(BIAS, Biased(x));
    LevelMonotone(BIAS, Biased(y));
    if y < 0 {
      LevelMonotone(Biased(y), Biased(x));
    } else if x >= 0 {
      LevelMonotone(Biased(x), Biased(y));
    }
  }

  /** A code word read from the line: its sign, segment and step. */
  lemma LevelOfCode(e: nat, q: nat)
    requires e <= 7 && 16 <= q < 32
    ensures var b := q * Width(e) + Width(e) / 2;
      128 <= b < 32768 && Segment(b) == e && b / Width(e) == q && (b == BIAS <==> e == 0 && q == 16)
  {
    hide Width, Segment;
    var w := Width(e);
    var b := q * w + w / 2;
    SegmentIsSixteenWidths(e);
    MulMonotone(16, q, w);
    MulMonotone(q, 31, w);
    Powers();
    Pow2Monotone(7, e + 7);
    Pow2Monotone(e + 8, 15);
    SegmentUnique(b, e);
    DivIs(b, q, w);
    LeastCode(e, q);
  }

  lemma LeastCode(e: nat, q: nat)
    requires e <= 7 && 16 <= q < 32
    ensures BIAS <= q * Width(e) + Width(e) / 2
    ensures q * Width(e) + Width(e) / 2 == BIAS <==> e == 0 && q == 16
    ensures q * Width(e) + Width(e) / 2 <= CLIP
  {
    Powers();
    assert Width(e) == [8, 16, 32, 64, 128, 256, 512, 1024][e] by {
      assert Pow2(4) == 16 && Pow2(5) == 32 && Pow2(6) == 64;
    }
  }

  /** Encoding a decoded code word gives it back, but for the negative zero. */
  lemma ReencodeExactly(u: nat)
    requires u <= 255
    ensures Encoded(Decoded(u)) == u <==> u != 127
    ensures Decoded(Encoded(Decoded(u))) == Decoded(u)
  {
    hide Decoded, Encoded;
    var v := 255 - u;
    FieldsFound(v);
    ReencodeFields(v >= 128, v / 16 % 8, v % 16 + 16);
    ZeroDecoded();
  }

  lemma FieldsFound(v: nat)
    requires v <= 255
    ensures v == (if v >= 128 then 128 else 0) + 16 * (v / 16 % 8) + (v % 16 + 16) % 16
    ensures v == 128 <==> v >= 128 && v / 16 % 8 == 0 && v % 16 == 0
  {
  }

  /** Sign, segment and step come back, the sign of a zero level as positive. */
  lemma ReencodeFields(neg: bool, e: nat, q: nat)
    requires e <= 7 && 16 <= q < 32
    ensures var u := 255 - ((if neg then 128 else 0) + 16 * e + q % 16);
      0 <= u <= 255 && Encoded(Decoded(u)) == if e == 0 && q == 16 then 255 else u
  {
    hide Decoded, Segment, Width;
    FieldsReadBack(neg, e, q);
    LevelOfCode(e, q);
    LeastCode(e, q);
    var u := 255 - ((if neg then 128 else 0) + 16 * e + q % 16);
    assert Biased(Decoded(u)) == q * Width(e) + Width(e) / 2;
  }

  lemma ZeroDecoded()
    ensures Decoded(255) == 0 == Decoded(127)
  {
  }

  /** What leaves the line is a 16-bit sample. */
  lemma InRange(pcm: int)
    ensures Abs(Decoded(Encoded(pcm))) <= 32124
  {
    hide Decoded, Level;
    DecodedIsLevel(pcm);
    ZeroLevel();
    LevelMonotone(BIAS, Biased(pcm));
    LevelMonotone(Biased(pcm), CLIP + BIAS);
    assert Level(CLIP + BIAS) == 32124 + BIAS by { TopLevel(); }
  }

  lemma TopLevel()
    ensures Level(CLIP + BIAS) == 32124 + BIAS
  {
    Powers();
    assert Width(7) == 1024;
  }

  /** A word of the standard's tables, by its segment and the width of its steps. */
  lemma Word(pcm: int, b: nat, e: nat, w: nat, u: nat)
    requires b == Biased(pcm) && e <= 7 && w == Width(e) && 16 * w <= b < 32 * w
    requires u == 255 - ((if pcm < 0 then 128 else 0) + 16 * e + b / w % 16)
    ensures Encoded(pcm) == u
  {
    hide Segment, Biased, Width, Pow2;
    SegmentIsSixteenWidths(e);
    SegmentUnique(b, e);
  }

  lemma Widths()
    ensures Width(0) == 8 && Width(3) == 64 && Width(7) == 1024 && Pow2(0) == 1
  {
    Powers();
    assert Pow2(0) == 1 && Pow2(6) == 64;
  }

  /** The positive and the negative zero, both ends and one in between, as the standard's tables have them. */
  lemma KnownWords()
    ensures Encoded(0) == 0xFF && Encoded(-1) == 0x7F && Encoded(32767) == 0x80 && Encoded(-32768) == 0x00
    ensures Encoded(1000) == 0xCE && Encoded(-1000) == 0x4E
  {
    hide Encoded, Width, Segment, Pow2;
    Widths();
    Word(0, 132, 0, 8, 0xFF);
    Word(-1, 133, 0, 8, 0x7F);
    Word(32767, 32767, 7, 1024, 0x80);
    Word(-32768, 32767, 7, 1024, 0x00);
    Word(1000, 1132, 3, 64, 0xCE);
    Word(-1000, 1132, 3, 64, 0x4E);
  }

  lemma KnownLevels()
    ensures Decoded(0xFF) == 0 && Decoded(0x7F) == 0 && Decoded(0x80) == 32124 && Decoded(0x00) == -32124
    ensures Decoded(0xCE) == 988 && Decoded(0x4E) == -988
  {
    hide Pow2;
    Powers();
    Widths();
    assert Pow2(7) == 128;
  }
}
