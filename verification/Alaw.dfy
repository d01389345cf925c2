/**
 The A-law codec (section 3 of ITU-T Recommendation G.711) and the bit search it rests on. A C int is modelled as
 an integer, a byte as its value; the shifts and masks of non-negative values are divisions and remainders.
 */
module Alaw {

  // ---------------------------------------------------------------------------------------
  // Powers of two

  function Pow2(n: nat): (p: int)
    ensures p >= 1
  {
    if n == 0 then 1 else 2 * Pow2(n - 1)
  }

  lemma {:induction false} Pow2Monotone(m: nat, n: nat)
    requires m <= n
    ensures Pow2(m) <= Pow2(n)
  {
    if m < n { Pow2Monotone(m, n - 1); }
  }

  lemma {:induction false} Pow2Far(n: nat)
    requires n >= 16
    ensures Pow2(n) == 0x1_0000 * Pow2(n - 16)
  {
    if n == 16 { assert Pow2(8) == 256 && Pow2(12) == 16 * Pow2(8) && Pow2(16) == 16 * Pow2(12); }
    else { Pow2Far(n - 1); }
  }

  function FloorLog2(n: int): (k: int)
    requires n >= 1
    ensures k >= 0 && Pow2(k) <= n < Pow2(k + 1)
  {
    if n == 1 then 0 else FloorLog2(n / 2) + 1
  }

  lemma LogUnique(n: int, k: nat)
    requires Pow2(k) <= n < Pow2(k + 1)
    ensures FloorLog2(n) == k
  {
    var l := FloorLog2(n);
    if l < k { Pow2Monotone(l + 1, k); }
    if l > k { Pow2Monotone(k + 1, l); }
  }

  // ---------------------------------------------------------------------------------------
  // openr2_top_bit

  /** The number of the highest bit set, by narrowing the word down; -1 for zero. */
  method TopBit(word: bv32) returns (res: int)
    ensures word == 0 ==> res == -1
    ensures word != 0 ==> 0 <= res < 32 && word >> res == 1
  {
    var bits := word;
    if bits == 0 {
      return -1;
    }
    res := 0;
    if bits & 0xFFFF0000 != 0 {
      bits := bits & 0xFFFF0000;
      res := res + 16;
    }
    if bits & 0xFF00FF00 != 0 {
      bits := bits & 0xFF00FF00;
      res := res + 8;
    }
    if bits & 0xF0F0F0F0 != 0 {
      bits := bits & 0xF0F0F0F0;
      res := res + 4;
    }
    if bits & 0xCCCCCCCC != 0 {
      bits := bits & 0xCCCCCCCC;
      res := res + 2;
    }
    if bits & 0xAAAAAAAA != 0 {
      bits := bits & 0xAAAAAAAA;
      res := res + 1;
    }
  }

  /** The bit TopBit finds in a word is the floor of the logarithm of its value. */
  lemma TopBitIsLog(word: bv32, res: int)
    requires 0 <= res < 32 && word >> res == 1
    ensures word as int >= 1 && FloorLog2(word as int) == res
  {
    WordBounds(word, res);
    LogUnique(word as int, res);
  }

  lemma WordBounds(word: bv32, res: int)
    requires 0 <= res < 32 && word >> res == 1
    ensures Pow2(res) <= word as int < Pow2(res + 1)
  {
    if res < 16 {
      if res == 15 { Pow2Far(16); }
      LowBounds(word, res);
    } else {
      HighBounds(word, res);
      Pow2Far(res);
      Pow2Far(res + 1);
    }
  }

  lemma Pow2Table()
    ensures Pow2(0) == 0x1 && Pow2(1) == 0x2 && Pow2(2) == 0x4 && Pow2(3) == 0x8
    ensures Pow2(4) == 0x10 && Pow2(5) == 0x20 && Pow2(6) == 0x40 && Pow2(7) == 0x80
    ensures Pow2(8) == 0x100 && Pow2(9) == 0x200 && Pow2(10) == 0x400 && Pow2(11) == 0x800
    ensures Pow2(12) == 0x1000 && Pow2(13) == 0x2000 && Pow2(14) == 0x4000 && Pow2(15) == 0x8000
  {
    assert Pow2(3) == 8;
    assert Pow2(6) == 64;
    assert Pow2(9) == 512;
    assert Pow2(12) == 4096;
  }

  lemma LowBounds(word: bv32, res: int)
    requires 0 <= res < 16 && word >> res == 1
    ensures Pow2(res) <= word as int < 2 * Pow2(res)
  {
    Pow2Table();
    if res == 0 { assert 0x1 <= word <= 0x1; }
    else if res == 1 { assert 0x2 <= word <= 0x3; }
    else if res == 2 { assert 0x4 <= word <= 0x7; }
    else if res == 3 { assert 0x8 <= word <= 0xF; }
    else if res == 4 { assert 0x10 <= word <= 0x1F; }
    else if res == 5 { assert 0x20 <= word <= 0x3F; }
    else if res == 6 { assert 0x40 <= word <= 0x7F; }
    else if res == 7 { assert 0x80 <= word <= 0xFF; }
    else if res == 8 { assert 0x100 <= word <= 0x1FF; }
    else if res == 9 { assert 0x200 <= word <= 0x3FF; }
    else if res == 10 { assert 0x400 <= word <= 0x7FF; }
    else if res == 11 { assert 0x800 <= word <= 0xFFF; }
    else if res == 12 { assert 0x1000 <= word <= 0x1FFF; }
    else if res == 13 { assert 0x2000 <= word <= 0x3FFF; }
    else if res == 14 { assert 0x4000 <= word <= 0x7FFF; }
    else { assert 0x8000 <= word <= 0xFFFF; }
  }

  lemma HighBounds(word: bv32, res: int)
    requires 16 <= res < 32 && word >> res == 1
    ensures 0x1_0000 * Pow2(res - 16) <= word as int < 0x2_0000 * Pow2(res - 16)
  {
    Pow2Table();
    if res == 16 { assert 0x10000 <= word <= 0x1FFFF; }
    else if res == 17 { assert 0x20000 <= word <= 0x3FFFF; }
    else if res == 18 { assert 0x40000 <= word <= 0x7FFFF; }
    else if res == 19 { assert 0x80000 <= word <= 0xFFFFF; }
    else if res == 20 { assert 0x100000 <= word <= 0x1FFFFF; }
    else if res == 21 { assert 0x200000 <= word <= 0x3FFFFF; }
    else if res == 22 { assert 0x400000 <= word <= 0x7FFFFF; }
    else if res == 23 { assert 0x800000 <= word <= 0xFFFFFF; }
    else if res == 24 { assert 0x1000000 <= word <= 0x1FFFFFF; }
    else if res == 25 { assert 0x2000000 <= word <= 0x3FFFFFF; }
    else if res == 26 { assert 0x4000000 <= word <= 0x7FFFFFF; }
    else if res == 27 { assert 0x8000000 <= word <= 0xFFFFFFF; }
    else if res == 28 { assert 0x10000000 <= word <= 0x1FFFFFFF; }
    else if res == 29 { assert 0x20000000 <= word <= 0x3FFFFFFF; }
    else if res == 30 { assert 0x40000000 <= word <= 0x7FFFFFFF; }
    else { assert 0x80000000 <= word; }
  }

  // ---------------------------------------------------------------------------------------
  // The codec

  function FlipLow(d: int): (r: int)
    requires 0 <= d < 4
    ensures 0 <= r < 4
  {
    if d == 0 then 1 else if d == 1 then 0 else if d == 2 then 3 else 2
  }

  /** Inverts the lower bit of each of the n lowest pairs of bits. */
  function FlipPairs(b: int, n: nat): (r: int)
    requires b >= 0
    ensures r >= 0
  {
    if n == 0 then 0
    else FlipLow(b % 4) + 4 * FlipPairs(b / 4, n - 1)
  }

  /** The exclusive or with OR2_ALAW_AMI_MASK, 0x55. */
  function FlipAlternate(b: int): (r: int)
    requires IsByte(b)
    ensures IsByte(r)
  {
    FlipRange(b, 4);
    FlipPairs(b, 4)
  }

  predicate IsByte(b: int) { 0 <= b < 256 }

  /** The magnitude decoded from the segment and the quantization bits. */
  function Level(seg: int, q: int): int
    requires seg >= 0
  {
    if seg != 0 then (16 * q + 0x108) * Pow2(seg - 1) else 16 * q + 8
  }

  function AlawToLinear(alaw: int): int
    requires IsByte(alaw)
  {
    var b := FlipAlternate(alaw);
    var level := Level((b / 16) % 8, b % 16);
    if b >= 0x80 then level else -level
  }

  /** The segment of a magnitude: openr2_top_bit(linear | 0xFF) - 7. */
  function Segment(mag: int): (seg: int)
    requires mag >= 0
    ensures seg >= 0
  {
    AtLeastEightBits(mag / 256 * 256 + 255);
    FloorLog2(mag / 256 * 256 + 255) - 7
  }

  lemma AtLeastEightBits(n: int)
    requires n >= 255
    ensures FloorLog2(n) >= 7
  {
    Pow2Table();
    if FloorLog2(n) < 7 { Pow2Monotone(FloorLog2(n) + 1, 7); }
  }

  /** The seven bits for a magnitude, before the sign is put in and alternate bits are inverted. */
  function Magnitude(mag: int): (c: int)
    requires mag >= 0
    ensures 0 <= c < 128
  {
    var seg := Segment(mag);
    if seg >= 8 then 0x7F
    else 16 * seg + (mag / (if seg != 0 then Pow2(seg + 3) else 16)) % 16
  }

  function LinearToAlaw(linear: int): int {
    if linear >= 0 then FlipAlternate(Magnitude(linear) + 0x80) else FlipAlternate(Magnitude(-linear - 1))
  }

  // ---------------------------------------------------------------------------------------
  // Bytes

  function Pow4(n: nat): int { if n == 0 then 1 else 4 * Pow4(n - 1) }

  lemma {:induction false} FlipRange(b: int, n: nat)
    requires 0 <= b < Pow4(n)
    ensures 0 <= FlipPairs(b, n) < Pow4(n)
  {
    if n > 0 { FlipRange(b / 4, n - 1); }
  }

  lemma PairInFront(low: int, rest: int)
    requires 0 <= low < 4 && rest >= 0
    ensures (low + 4 * rest) % 4 == low && (low + 4 * rest) / 4 == rest
  {
  }

  lemma {:induction false} FlipTwice(b: int, n: nat)
    requires 0 <= b < Pow4(n)
    ensures FlipPairs(FlipPairs(b, n), n) == b
  {
    if n > 0 {
      FlipTwice(b / 4, n - 1);
      PairInFront(FlipLow(b % 4), FlipPairs(b / 4, n - 1));
      assert FlipPairs(FlipPairs(b, n), n) == FlipLow(FlipLow(b % 4)) + 4 * (b / 4);
    }
  }

  // ---------------------------------------------------------------------------------------
  // The quantizer of G.711

  /** The width of the intervals in each of the segments. */
  function StepOf(mag: int): int {
    if mag < 512 then 16
    else if mag < 1024 then 32
    else if mag < 2048 then 64
    else if mag < 4096 then 128
    else if mag < 8192 then 256
    else if mag < 16384 then 512
    else 1024
  }

  /** The middle of the interval of a magnitude, or of the last interval for those beyond the range. */
  function Middle(mag: int): int {
    if mag >= 32768 then 32256 else mag / StepOf(mag) * StepOf(mag) + StepOf(mag) / 2
  }

  function Quantized(x: int): int { if x >= 0 then Middle(x) else -Middle(-x - 1) }

  /** The segment of a magnitude from its interval. */
  lemma SegmentAt(mag: int, seg: nat)
    requires seg <= 7 && mag < 256 * Pow2(seg) && (if seg == 0 then 0 <= mag else 128 * Pow2(seg) <= mag)
    ensures Segment(mag) == seg
  {
    Pow2Table();
    var filled := mag / 256 * 256 + 255;
    assert mag <= filled <= mag + 255;
    assert Pow2(seg + 7) == 128 * Pow2(seg) && Pow2(seg + 8) == 256 * Pow2(seg);
    if seg == 0 { assert filled == 255; } else { assert filled < 256 * Pow2(seg); }
    LogUnique(filled, seg + 7);
  }

  /** What is sent for a magnitude is the number of its interval. */
  lemma IntervalSent(mag: int, seg: nat, q: int)
    requires seg <= 7 && 0 <= q < 16
    requires seg == 0 ==> 16 * q <= mag < 16 * (q + 1)
    requires seg > 0 ==> 8 * Pow2(seg) * (16 + q) <= mag < 8 * Pow2(seg) * (17 + q)
    ensures mag >= 0 && Magnitude(mag) == 16 * seg + q
  {
    if seg == 0 {
      Pow2Table();
      SegmentAt(mag, 0);
      IntervalNumber(mag, 16, q);
    } else {
      IntervalInSegment(mag, seg, q, 8 * Pow2(seg));
    }
  }

  lemma IntervalInSegment(mag: int, seg: nat, q: int, step: int)
    requires 1 <= seg <= 7 && 0 <= q < 16 && step == 8 * Pow2(seg)
    requires step * (16 + q) <= mag < step * (17 + q)
    ensures mag >= 0 && Magnitude(mag) == 16 * seg + q
  {
    Scales(step, 16, 16 + q);
    Scales(step, 17 + q, 32);
    SegmentAt(mag, seg);
    IntervalNumber(mag, step, 16 + q);
    EightFold(seg);
    assert (16 + q) % 16 == q;
  }

  lemma EightFold(n: nat)
    ensures Pow2(n + 3) == 8 * Pow2(n)
  {
    assert Pow2(n + 2) == 2 * Pow2(n + 1);
  }

  lemma Scales(step: int, m: int, n: int)
    requires step > 0
    ensures m <= n ==> step * m <= step * n
    ensures m < n ==> step * (m + 1) <= step * n
  {
    Difference(step, m, n);
    Difference(step, m + 1, n);
  }

  lemma Difference(step: int, m: int, n: int)
    requires step > 0
    ensures n >= m ==> step * n - step * m >= 0
  {
    if n >= m { NotNegative(step, n - m); }
  }

  lemma NotNegative(a: int, b: int)
    requires a >= 0 && b >= 0
    ensures a * b >= 0
  {
  }

  lemma IntervalNumber(mag: int, step: int, n: int)
    requires step > 0 && step * n <= mag < step * (n + 1)
    ensures mag / step == n
  {
    Scales(step, mag / step, n);
    Scales(step, n, mag / step);
    assert mag == step * (mag / step) + mag % step;
  }

  // ---------------------------------------------------------------------------------------
  // Encoding, then decoding

  lemma MagnitudeInSegment(mag: int, seg: nat, p: int)
    requires 1 <= seg <= 7 && p == Pow2(seg - 1) && 256 * p <= mag < 512 * p
    ensures var n := mag / (16 * p);
            && 16 <= n < 32 && Magnitude(mag) == 16 * seg + (n - 16)
            && Level(seg, n - 16) == n * (16 * p) + 8 * p
  {
    var n := mag / (16 * p);
    IntervalRange(mag, 16 * p);
    SentInSegment(mag, seg, 16 * p, n);
    LevelFormula(seg, n - 16);
  }

  lemma SentInSegment(mag: int, seg: nat, step: int, n: int)
    requires 1 <= seg <= 7 && step == 16 * Pow2(seg - 1) && 16 <= n < 32 && mag >= 0 && n == mag / step
    ensures Magnitude(mag) == 16 * seg + (n - 16)
  {
    Distribute(step, n);
    DivBounds(mag, step);
    IntervalSent(mag, seg, n - 16);
  }

  lemma IntervalRange(mag: int, step: int)
    requires step > 0 && 16 * step <= mag < 32 * step
    ensures 16 <= mag / step < 32
  {
    DivBounds(mag, step);
    Distribute(step, mag / step);
    Scales(step, mag / step, 15);
    Scales(step, 32, mag / step);
  }

  lemma LevelFormula(seg: nat, q: int)
    requires seg >= 1
    ensures var p := Pow2(seg - 1); Level(seg, q) == (16 + q) * (16 * p) + 8 * p
  {
    Expand(Pow2(seg - 1), q);
  }

  lemma Expand(p: int, q: int)
    ensures (16 * q + 264) * p == (16 + q) * (16 * p) + 8 * p
  {
  }

  lemma Distribute(step: int, n: int)
    ensures step * (n + 1) == step * n + step
  {
  }

  /** The level decoded from what is sent for a magnitude is the middle of its interval. */
  lemma MiddleSent(mag: int)
    requires mag >= 0
    ensures var c := Magnitude(mag); 0 <= c < 128 && Level(c / 16, c % 16) == Middle(mag)
  {
    if mag < 256 { FirstMiddle(mag); }
    else if mag < 4096 { LowMiddle(mag); }
    else if mag < 32768 { HighMiddle(mag); }
    else { BeyondRange(mag); CodeApart(7, 15); }
  }

  lemma FirstMiddle(mag: int)
    requires 0 <= mag < 256
    ensures var c := Magnitude(mag); Level(c / 16, c % 16) == Middle(mag)
  {
    IntervalSent(mag, 0, mag / 16);
    CodeApart(0, mag / 16);
  }

  lemma LowMiddle(mag: int)
    requires 256 <= mag < 4096
    ensures var c := Magnitude(mag); Level(c / 16, c % 16) == Middle(mag)
  {
    Pow2Table();
    if mag < 512 { SegmentMiddle(mag, 1, 1); }
    else if mag < 1024 { SegmentMiddle(mag, 2, 2); }
    else if mag < 2048 { SegmentMiddle(mag, 3, 4); }
    else { SegmentMiddle(mag, 4, 8); }
  }

  lemma HighMiddle(mag: int)
    requires 4096 <= mag < 32768
    ensures var c := Magnitude(mag); Level(c / 16, c % 16) == Middle(mag)
  {
    Pow2Table();
    if mag < 8192 { SegmentMiddle(mag, 5, 16); }
    else if mag < 16384 { SegmentMiddle(mag, 6, 32); }
    else { SegmentMiddle(mag, 7, 64); }
  }

  lemma SegmentMiddle(mag: int, seg: nat, p: int)
    requires 1 <= seg <= 7 && p == Pow2(seg - 1) && 256 * p <= mag < 512 * p && mag < 32768 && StepOf(mag) == 16 * p
    ensures var c := Magnitude(mag); Level(c / 16, c % 16) == Middle(mag)
  {
    MagnitudeInSegment(mag, seg, p);
    CodeApart(seg, mag / (16 * p) - 16);
  }

  lemma CodeApart(seg: int, q: int)
    requires 0 <= q < 16
    ensures (16 * seg + q) / 16 == seg && (16 * seg + q) % 16 == q
  {
  }

  lemma BeyondRange(mag: int)
    requires mag >= 32768
    ensures Magnitude(mag) == 127 && Level(7, 15) == 32256
  {
    Pow2Table();
    var filled := mag / 256 * 256 + 255;
    var k := FloorLog2(filled);
    if k + 1 <= 15 { Pow2Monotone(k + 1, 15); }
  }

  /** Decoding what encoding sends quantizes, for every int that can be negated. */
  lemma DecodeEncode(x: int)
    ensures IsByte(LinearToAlaw(x)) && AlawToLinear(LinearToAlaw(x)) == Quantized(x)
  {
    if x >= 0 { MiddleSent(x); CodeDecoded(Magnitude(x)); }
    else { MiddleSent(-x - 1); CodeDecoded(Magnitude(-x - 1)); }
  }

  /** What is decoded from the seven bits of a magnitude with either sign. */
  lemma CodeDecoded(c: int)
    requires 0 <= c < 128
    ensures AlawToLinear(FlipAlternate(c + 0x80)) == Level(c / 16, c % 16)
    ensures AlawToLinear(FlipAlternate(c)) == -Level(c / 16, c % 16)
  {
    FlipTwice(c, 4);
    FlipTwice(c + 0x80, 4);
    SignApart(c);
  }

  lemma SignApart(c: int)
    requires 0 <= c < 128
    ensures (c + 0x80) / 16 % 8 == c / 16 && (c + 0x80) % 16 == c % 16 && c / 16 % 8 == c / 16
  {
    assert (c + 0x80) / 16 == c / 16 + 8;
  }

  /** Encoding what decoding yields gives the byte back. */
  lemma EncodeDecode(b: int)
    requires IsByte(b)
    ensures LinearToAlaw(AlawToLinear(b)) == b
  {
    var f := FlipAlternate(b);
    FlipTwice(b, 4);
    LevelSent((f / 16) % 8, f % 16);
    BytesApart(f);
    var level := Level((f / 16) % 8, f % 16);
    if f >= 0x80 { assert Magnitude(level) + 0x80 == f; } else { assert Magnitude(level - 1) == f; }
  }

  lemma BytesApart(f: int)
    requires IsByte(f)
    ensures f == (f / 16) % 8 * 16 + f % 16 + if f >= 0x80 then 0x80 else 0
  {
    assert f / 16 == (f / 16) / 8 * 8 + (f / 16) % 8;
  }

  /** Both the level and the one below it lie in the interval of the code. */
  lemma LevelSent(seg: nat, q: int)
    requires seg <= 7 && 0 <= q < 16
    ensures var level := Level(seg, q);
            level > 0 && Magnitude(level) == 16 * seg + q && Magnitude(level - 1) == 16 * seg + q
  {
    if seg > 0 { LevelInside(seg, q, Pow2(seg - 1)); }
    IntervalSent(Level(seg, q), seg, q);
    IntervalSent(Level(seg, q) - 1, seg, q);
  }

  lemma LevelInside(seg: nat, q: int, p: int)
    requires seg >= 1 && q >= 0 && p == Pow2(seg - 1)
    ensures 8 * Pow2(seg) * (16 + q) < Level(seg, q) < 8 * Pow2(seg) * (17 + q) && Level(seg, q) > 1
  {
    LevelFormula(seg, q);
    Distribute(16 * p, 16 + q);
    Scales(16 * p, 1, 16 + q);
    assert 8 * Pow2(seg) == 16 * p;
  }

  // ---------------------------------------------------------------------------------------
  // What the quantizer guarantees

  /** Quantizing a quantized sample changes nothing. */
  lemma QuantizedIdempotent(x: int)
    ensures Quantized(Quantized(x)) == Quantized(x)
  {
    DecodeEncode(x);
    EncodeDecode(LinearToAlaw(x));
    DecodeEncode(Quantized(x));
  }

  lemma DivBounds(mag: int, step: int)
    requires step > 0 && mag >= 0
    ensures mag / step * step <= mag < mag / step * step + step
  {
  }

  /** The error is at most eight, or one part in thirty-two, for sixteen-bit samples. */
  lemma QuantizationError(x: int)
    requires -32768 <= x < 32768
    ensures var error, size := Quantized(x) - x, if x >= 0 then x else -x;
            -8 <= error <= 8 || -(size / 32) <= error <= size / 32
  {
    var mag := if x >= 0 then x else -x - 1;
    DivBounds(mag, StepOf(mag));
  }

  /** Larger samples never decode to smaller values, and no value leaves the range. */
  lemma QuantizedMonotone(x: int, y: int)
    requires x <= y
    ensures Quantized(x) <= Quantized(y)
    ensures -32256 <= Quantized(x) <= 32256
    ensures x >= 32768 ==> Quantized(x) == 32256
    ensures x < -32768 ==> Quantized(x) == -32256
  {
    if x >= 0 { MiddleMonotone(x, y); MiddleMonotone(x, x); }
    else {
      MiddleMonotone(-x - 1, -x - 1);
      if y < 0 { MiddleMonotone(-y - 1, -x - 1); } else { MiddleMonotone(y, y); }
    }
  }

  lemma MiddleMonotone(m: int, n: int)
    requires 0 <= m <= n
    ensures 0 <= Middle(m) <= Middle(n) <= 32256
  {
    MiddleNear(m);
    MiddleNear(n);
    if n < 32768 && StepOf(m) == StepOf(n) {
      var step := StepOf(m);
      IntervalOrder(m, n, step);
    }
  }

  lemma IntervalOrder(m: int, n: int, step: int)
    requires 0 <= m <= n && step > 0
    ensures m / step * step <= n / step * step
  {
    DivBounds(m, step);
    DivBounds(n, step);
    Scales(step, n / step, m / step);
    Scales(step, m / step, n / step);
  }

  lemma MiddleNear(m: int)
    requires m >= 0
    ensures 0 <= Middle(m) <= 32256
    ensures m < 512 ==> Middle(m) < 512
    ensures 512 <= m < 1024 ==> 512 <= Middle(m) < 1024
    ensures 1024 <= m < 2048 ==> 1024 <= Middle(m) < 2048
    ensures 2048 <= m < 4096 ==> 2048 <= Middle(m) < 4096
    ensures 4096 <= m < 8192 ==> 4096 <= Middle(m) < 8192
    ensures 8192 <= m < 16384 ==> 8192 <= Middle(m) < 16384
    ensures 16384 <= m ==> 16384 <= Middle(m)
  {
  }

  // ---------------------------------------------------------------------------------------
  // What goes on the wire

  const BIT_VALUES: seq<int> := [1, 2, 4, 8, 16, 32, 64, 128]

  /** The i-th bit of a byte, from the lowest. */
  function Bit(b: int, i: int): int
    requires 0 <= i < 8
  {
    b / BIT_VALUES[i] % 2
  }

  /** The bits of a and b differ in the places 0, 2, 4 and 6 and agree in the others: a is b xored with 0x55. */
  predicate Xored55(a: int, b: int) {
    IsByte(a) && IsByte(b) && forall i :: 0 <= i < 8 ==>
        (Bit(a, i) != Bit(b, i) <==> i == 0 || i == 2 || i == 4 || i == 6)
  }

  /** Both directions invert the even bits of a byte, and no others. */
  lemma AlternateBitsInverted(b: int)
    requires IsByte(b)
    ensures Xored55(FlipAlternate(b), b)
  {
    var d0, d1, d2, d3 := b % 4, b / 4 % 4, b / 16 % 4, b / 64;
    ByPairs(b);
    PairsFlipped(b);
    PairBits(b, d0, d1, d2, d3);
    PairBits(FlipAlternate(b), FlipLow(d0), FlipLow(d1), FlipLow(d2), FlipLow(d3));
    LowBitFlipped(d0);
    LowBitFlipped(d1);
    LowBitFlipped(d2);
    LowBitFlipped(d3);
    EveryBit(FlipAlternate(b), b);
  }

  lemma LowBitFlipped(d: int)
    requires 0 <= d < 4
    ensures FlipLow(d) % 2 != d % 2 && FlipLow(d) / 2 == d / 2
  {
  }

  lemma ByPairs(b: int)
    requires IsByte(b)
    ensures 0 <= b / 64 < 4 && b == b % 4 + 4 * (b / 4 % 4) + 16 * (b / 16 % 4) + 64 * (b / 64)
  {
    assert b / 16 == b / 4 / 4 && b / 64 == b / 16 / 4;
  }

  lemma EveryBit(a: int, b: int)
    requires IsByte(a) && IsByte(b)
    requires Bit(a, 0) != Bit(b, 0) && Bit(a, 1) == Bit(b, 1) && Bit(a, 2) != Bit(b, 2) && Bit(a, 3) == Bit(b, 3)
    requires Bit(a, 4) != Bit(b, 4) && Bit(a, 5) == Bit(b, 5) && Bit(a, 6) != Bit(b, 6) && Bit(a, 7) == Bit(b, 7)
    ensures Xored55(a, b)
  {
  }

  lemma PairsFlipped(b: int)
    requires IsByte(b)
    ensures FlipAlternate(b) ==
            FlipLow(b % 4) + 4 * FlipLow(b / 4 % 4) + 16 * FlipLow(b / 16 % 4) + 64 * FlipLow(b / 64)
  {
    assert b / 4 / 4 == b / 16 && b / 16 / 4 == b / 64 && b / 64 % 4 == b / 64;
    assert FlipPairs(b / 64, 1) == FlipLow(b / 64);
    assert FlipPairs(b / 16, 2) == FlipLow(b / 16 % 4) + 4 * FlipPairs(b / 64, 1);
    assert FlipPairs(b / 4, 3) == FlipLow(b / 4 % 4) + 4 * FlipPairs(b / 16, 2);
  }

  lemma PairBits(b: int, d0: int, d1: int, d2: int, d3: int)
    requires 0 <= d0 < 4 && 0 <= d1 < 4 && 0 <= d2 < 4 && 0 <= d3 < 4 && b == d0 + 4 * d1 + 16 * d2 + 64 * d3
    ensures IsByte(b) && Bit(b, 0) == d0 % 2 && Bit(b, 1) == d0 / 2 && Bit(b, 2) == d1 % 2 && Bit(b, 3) == d1 / 2
    ensures Bit(b, 4) == d2 % 2 && Bit(b, 5) == d2 / 2 && Bit(b, 6) == d3 % 2 && Bit(b, 7) == d3 / 2
  {
    LowestPair(b, d0, d1 + 4 * d2 + 16 * d3);
    LowestPair(b / 4, d1, d2 + 4 * d3);
    LowestPair(b / 16, d2, d3);
    LowestPair(b / 64, d3, 0);
    Halves(b);
  }

  lemma LowestPair(b: int, d: int, rest: int)
    requires 0 <= d < 4 && rest >= 0 && b == d + 4 * rest
    ensures b % 2 == d % 2 && b / 2 % 2 == d / 2 && b / 4 == rest
  {
  }

  lemma Halves(b: int)
    requires b >= 0
    ensures b / 8 == b / 4 / 2 && b / 16 == b / 4 / 4 && b / 32 == b / 16 / 2 && b / 64 == b / 16 / 4
    ensures b / 128 == b / 64 / 2
  {
  }

  /** The segment and the interval of a magnitude, by the ranges of G.711; what lies beyond has those of the last. */
  predicate IsInterval(mag: int, seg: int, q: int) {
    || (0 <= mag < 256 && seg == 0 && 16 * q <= mag < 16 * q + 16)
    || (256 <= mag < 512 && seg == 1 && 16 * q <= mag - 256 < 16 * q + 16)
    || (512 <= mag < 1024 && seg == 2 && 32 * q <= mag - 512 < 32 * q + 32)
    || (1024 <= mag < 2048 && seg == 3 && 64 * q <= mag - 1024 < 64 * q + 64)
    || (2048 <= mag < 4096 && seg == 4 && 128 * q <= mag - 2048 < 128 * q + 128)
    || (4096 <= mag < 8192 && seg == 5 && 256 * q <= mag - 4096 < 256 * q + 256)
    || (8192 <= mag < 16384 && seg == 6 && 512 * q <= mag - 8192 < 512 * q + 512)
    || (16384 <= mag < 32768 && seg == 7 && 1024 * q <= mag - 16384 < 1024 * q + 1024)
    || (32768 <= mag && seg == 7 && q == 15)
  }

  /**
   The byte sent for a sample, xored with 0x55, has the sign in bit 7, set for samples that are not negative, the
   segment of the magnitude in bits 4 to 6 and the interval in bits 0 to 3.
   */
  lemma SentOnTheWire(x: int, seg: int, q: int)
    requires IsInterval(if x >= 0 then x else -x - 1, seg, q)
    ensures 0 <= seg < 8 && 0 <= q < 16
    ensures Xored55(LinearToAlaw(x), (if x >= 0 then 128 else 0) + 16 * seg + q)
  {
    var mag := if x >= 0 then x else -x - 1;
    IntervalCode(mag, seg, q);
    AlternateBitsInverted((if x >= 0 then 128 else 0) + 16 * seg + q);
  }

  lemma IntervalCode(mag: int, seg: int, q: int)
    requires IsInterval(mag, seg, q)
    ensures 0 <= seg < 8 && 0 <= q < 16 && mag >= 0 && Magnitude(mag) == 16 * seg + q
  {
    Pow2Table();
    if mag >= 32768 { BeyondRange(mag); } else { IntervalSent(mag, seg, q); }
  }

  /** Every sample has a segment and an interval, so the byte sent for it is determined. */
  lemma HasInterval(x: int) returns (seg: int, q: int)
    ensures IsInterval(if x >= 0 then x else -x - 1, seg, q)
  {
    var mag := if x >= 0 then x else -x - 1;
    if mag < 256 { seg, q := 0, mag / 16; }
    else if mag < 512 { seg, q := 1, (mag - 256) / 16; }
    else if mag < 1024 { seg, q := 2, (mag - 512) / 32; }
    else if mag < 2048 { seg, q := 3, (mag - 1024) / 64; }
    else if mag < 4096 { seg, q := 4, (mag - 2048) / 128; }
    else if mag < 8192 { seg, q := 5, (mag - 4096) / 256; }
    else if mag < 16384 { seg, q := 6, (mag - 8192) / 512; }
    else if mag < 32768 { seg, q := 7, (mag - 16384) / 1024; }
    else { seg, q := 7, 15; }
  }

  /** What a byte decodes to, by its sign, segment and interval: the middle of the interval. */
  lemma ReadFromTheWire(b: int, negative: bool, seg: int, q: int)
    requires 0 <= seg < 8 && 0 <= q < 16 && Xored55(b, (if negative then 0 else 128) + 16 * seg + q)
    ensures var scale := [1, 1, 2, 4, 8, 16, 32, 64];
            var level := if seg == 0 then 16 * q + 8 else (16 * q + 264) * scale[seg];
            AlawToLinear(b) == if negative then -level else level
  {
    var f := (if negative then 0 else 128) + 16 * seg + q;
    AlternateBitsInverted(b);
    XorUnique(b, FlipAlternate(b), f);
    Pow2Table();
    SignApart(16 * seg + q);
    CodeApart(seg, q);
  }

  lemma XorUnique(a: int, b: int, c: int)
    requires Xored55(b, a) && Xored55(a, c)
    ensures b == c
  {
    FromBits(b);
    FromBits(c);
    assert forall i :: 0 <= i < 8 ==> 0 <= Bit(a, i) < 2 && 0 <= Bit(b, i) < 2 && 0 <= Bit(c, i) < 2;
    assert Bit(b, 0) == Bit(c, 0) && Bit(b, 1) == Bit(c, 1) && Bit(b, 2) == Bit(c, 2) && Bit(b, 3) == Bit(c, 3);
    assert Bit(b, 4) == Bit(c, 4) && Bit(b, 5) == Bit(c, 5) && Bit(b, 6) == Bit(c, 6) && Bit(b, 7) == Bit(c, 7);
  }

  lemma FromBits(b: int)
    requires IsByte(b)
    ensures b == Bit(b, 0) + 2 * Bit(b, 1) + 4 * Bit(b, 2) + 8 * Bit(b, 3) +
                 16 * Bit(b, 4) + 32 * Bit(b, 5) + 64 * Bit(b, 6) + 128 * Bit(b, 7)
  {
    ByPairs(b);
    PairBits(b, b % 4, b / 4 % 4, b / 16 % 4, b / 64);
  }
}
