/** The A-law codec of src/g711_alaw.c (section 3 of ITU-T G.711). */
module G711Alaw {
  import opened Words

  type sample = x: int | -0x8000 <= x < 0x8000

  // ---------------------------------------------------------------------------
  // Bitwise exclusive or on naturals.

  function Xor(a: nat, b: nat): nat
    decreases a + b
  {
    if a == 0 && b == 0 then 0 else (a + b) % 2 + 2 * Xor(a / 2, b / 2)
  }

  function Pow2(k: nat): (p: nat)
    ensures p > 0
  {
    if k == 0 then 1 else 2 * Pow2(k - 1)
  }

  lemma {:induction false} XorBits(a: nat, b: nat)
    ensures Xor(a, b) == (a + b) % 2 + 2 * Xor(a / 2, b / 2)
    ensures Xor(a, b) % 2 == (a + b) % 2 && Xor(a, b) / 2 == Xor(a / 2, b / 2)
  {
    var bit, rest := (a + b) % 2, Xor(a / 2, b / 2);
    assert (bit + 2 * rest) / 2 == rest && (bit + 2 * rest) % 2 == bit;
  }

  lemma {:induction false} XorTwice(a: nat, m: nat)
    ensures Xor(Xor(a, m), m) == a
    decreases a + m
  {
    if a != 0 || m != 0 {
      XorTwice(a / 2, m / 2);
      XorBits(a, m);
      XorBits(Xor(a, m), m);
    }
  }

  /** Adding an even number keeps the low bit. */
  lemma EvenShift(a: nat, h: nat)
    ensures (a + 2 * h) / 2 == a / 2 + h && (a + 2 * h) % 2 == a % 2
  {
  }

  /** A bit above both operands passes through, from either side. */
  lemma {:induction false} XorHighBit(a: nat, b: nat, k: nat)
    requires a < Pow2(k) && b < Pow2(k)
    ensures Xor(a, b) < Pow2(k)
    ensures Xor(a + Pow2(k), b) == Xor(a, b + Pow2(k)) == Xor(a, b) + Pow2(k)
  {
    hide Xor;
    if k == 0 {
      XorBits(0, 0);
      XorBits(1, 0);
      XorBits(0, 1);
    } else {
      XorHighBit(a / 2, b / 2, k - 1);
      XorCarriesHalf(a, b, Pow2(k - 1));
    }
  }

  lemma XorCarriesHalf(a: nat, b: nat, half: nat)
    requires Xor(a / 2, b / 2) < half
    requires Xor(a / 2 + half, b / 2) == Xor(a / 2, b / 2 + half) == Xor(a / 2, b / 2) + half
    ensures Xor(a, b) < 2 * half
    ensures Xor(a + 2 * half, b) == Xor(a, b + 2 * half) == Xor(a, b) + 2 * half
  {
    hide Xor;
    XorBits(a, b);
    XorBits(a + 2 * half, b);
    XorBits(a, b + 2 * half);
    EvenShift(a, half);
    EvenShift(b, half);
    EvenShift(a + b, half);
  }

  // ---------------------------------------------------------------------------
  // One sample.

  const POSITIVE_MASK := 0xd5
  const NEGATIVE_MASK := 0x55

  /** The largest magnitude, in units of eight, of each segment. */
  const SEGMENT_END: seq<nat> := [0x1f, 0x3f, 0x7f, 0xff, 0x1ff, 0x3ff, 0x7ff, 0xfff]

  /** Magnitude in units of eight; the negative half is shifted by one. */
  function Magnitude(x: sample): nat {
    (if x >= 0 then x else 0 - x - 1) / 8
  }

  /** The first segment, from `from` on, that reaches `m`. */
  function SegmentFrom(m: nat, from: nat): (s: nat)
    requires from <= 8
    ensures from <= s <= 8
    decreases 8 - from
  {
    if from < 8 && m > SEGMENT_END[from] then SegmentFrom(m, from + 1) else from
  }

  function Nibble(m: nat, segment: nat): nat {
    (if segment < 2 then m / 2 else m / Pow2(segment)) % 16
  }

  /** The seven magnitude bits before the mask. */
  function Folded(m: nat): nat {
    var segment := SegmentFrom(m, 0);
    if segment >= 8 then 0x7f else segment * 16 + Nibble(m, segment)
  }

  function Encode(x: sample): nat {
    Xor(Folded(Magnitude(x)), if x >= 0 then POSITIVE_MASK else NEGATIVE_MASK)
  }

  /** The middle of the step that segment and nibble stand for. */
  function Level(segment: nat, nibble: nat): nat {
    if segment == 0 then nibble * 16 + 8
    else if segment == 1 then nibble * 16 + 0x108
    else (nibble * 16 + 0x108) * Pow2(segment - 1)
  }

  function Decode(code: byte): int {
    var v := Xor(code, 0x55);
    var level := Level(v / 16 % 8, v % 16);
    if v >= 128 then level else 0 - level
  }

  lemma PowersUpToSeven()
    ensures Pow2(1) == 2 && Pow2(2) == 4 && Pow2(3) == 8 && Pow2(4) == 16
    ensures Pow2(5) == 32 && Pow2(6) == 64 && Pow2(7) == 128 && Pow2(8) == 256
  {
    assert Pow2(4) == 2 * Pow2(3) && Pow2(3) == 2 * Pow2(2);
    assert Pow2(7) == 2 * Pow2(6) && Pow2(6) == 2 * Pow2(5);
  }

  /** The segment search never runs off its table, and finds the segment whose span,
      from 32 * 2^(s-1) to 32 * 2^s, holds the magnitude. */
  lemma SegmentSpans(m: nat)
    requires m < 4096
    ensures var s := SegmentFrom(m, 0);
            && s < 8
            && m <= SEGMENT_END[s]
            && (s > 0 ==> m > SEGMENT_END[s - 1])
  {
    SegmentSearch(m, 0);
  }

  lemma {:induction false} SegmentSearch(m: nat, from: nat)
    requires m < 4096 && from < 8 && (from > 0 ==> m > SEGMENT_END[from - 1])
    ensures var s := SegmentFrom(m, from);
            && s < 8
            && m <= SEGMENT_END[s]
            && (s > 0 ==> m > SEGMENT_END[s - 1])
    decreases 8 - from
  {
    if m > SEGMENT_END[from] {
      assert from < 7;
      SegmentSearch(m, from + 1);
    }
  }

  /** The byte a sample is stored as, sign bit included, before the 0x55 mask. */
  lemma EncodeIsMasked(x: sample)
    ensures Folded(Magnitude(x)) < 128
    ensures Encode(x) == Xor(Folded(Magnitude(x)) + if x >= 0 then 128 else 0, 0x55)
    ensures Encode(x) < 256
  {
    var e := Folded(Magnitude(x));
    SegmentSpans(Magnitude(x));
    assert e < 128 by {
      hide Pow2;
    }
    PowersUpToSeven();
    XorHighBit(e, 0x55, 7);
    hide Folded, Xor, Pow2;
  }

  /** Decoding takes the mask off again. */
  lemma DecodeOfEncode(x: sample)
    ensures Encode(x) < 256
    ensures var e := Folded(Magnitude(x));
            Decode(Encode(x)) == if x >= 0 then Level(e / 16, e % 16) else 0 - Level(e / 16, e % 16)
  {
    EncodeIsMasked(x);
    var e := Folded(Magnitude(x));
    hide Folded, Xor, Level;
    XorTwice(e + if x >= 0 then 128 else 0, 0x55);
  }

  /** The step of a segment, in units of eight. */
  function Step(segment: nat): nat {
    if segment < 2 then 2 else Pow2(segment)
  }

  /** Each segment above the first spans sixteen of its own steps. */
  lemma SegmentOfSteps(s: nat)
    requires s < 8
    ensures Step(s) > 0 && SEGMENT_END[s] + 1 == (if s == 0 then 16 else 32) * Step(s)
    ensures s > 0 ==> SEGMENT_END[s - 1] + 1 == 16 * Step(s)
    ensures s > 0 ==> Step(s) == 2 * Pow2(s - 1)
  {
    PowersUpToSeven();
    assert Pow2(0) == 1;
    hide Pow2;
  }

  lemma DivisionBounds(m: nat, d: nat, low: nat, high: nat)
    requires d > 0 && low * d <= m < high * d
    ensures low <= m / d < high && d * (m / d) <= m < d * (m / d) + d
  {
    var q := m / d;
    assert m == d * q + m % d;
    if q < low {
      assert d * q + d <= d * low by { ProductsGrow(q + 1, low, d); }
    } else if q >= high {
      ProductsGrow(high, q, d);
    }
  }

  lemma QuotientIs(m: nat, d: nat, q: nat)
    requires d > 0 && d * q <= m < d * q + d
    ensures m / d == q
  {
    DivisionBounds(m, d, q, q + 1);
  }

  /** Segment and nibble stand for the middle of the magnitudes that share them. */
  lemma LevelIsTheMiddle(m: nat, s: nat)
    requires m < 4096 && s == SegmentFrom(m, 0)
    ensures s < 8 && Step(s) > 0
    ensures Nibble(m, s) < 16
    ensures var q := m / Step(s);
            && Level(s, Nibble(m, s)) == 8 * (Step(s) * q) + 4 * Step(s)
            && Step(s) * q <= m < Step(s) * q + Step(s)
            && (s > 0 ==> Step(s) * q >= 16 * Step(s))
  {
    SegmentSpans(m);
    SegmentOfSteps(s);
    var d := Step(s);
    var q := m / d;
    hide SegmentFrom, Pow2, Step;
    if s == 0 {
      assert d == 2 by { SegmentOfSteps(1); }
      assert q < 16;
    } else {
      DivisionBounds(m, d, 16, 32);
      ProductsGrow(16, q, d);
      assert Nibble(m, s) == q - 16 by { StepDivides(m, s); }
      LevelInSteps(s, q);
    }
  }

  lemma StepDivides(m: nat, s: nat)
    requires 0 < s < 8
    ensures Nibble(m, s) == m / Step(s) % 16
  {
    hide Pow2;
  }

  lemma LevelInSteps(s: nat, q: nat)
    requires 0 < s < 8 && 16 <= q < 32
    ensures Level(s, q - 16) == 8 * (Step(s) * q) + 4 * Step(s)
  {
    SegmentOfSteps(s);
    var half := Pow2(s - 1);
    assert Level(s, q - 16) == (q * 16 + 8) * half by {
      assert Pow2(0) == 1;
    }
    assert (q * 16 + 8) * half == 16 * (half * q) + 8 * half;
    assert Step(s) * q == 2 * (half * q);
  }

  function Abs(x: int): nat {
    if x < 0 then -x else x
  }

  /** `y` is off from `x` by a thirty-second of it at most, or by 8 for the small ones. */
  predicate Near(x: int, y: int) {
    32 * Abs(y - x) <= Max(256, Abs(x))
  }

  /** The error of one sample is within half a step of its segment. */
  lemma ErrorBound(x: sample)
    ensures Encode(x) < 256
    ensures Near(x, Decode(Encode(x)))
  {
    DecodeOfEncode(x);
    var m := Magnitude(x);
    var s := SegmentFrom(m, 0);
    LevelIsTheMiddle(m, s);
    var product := Step(s) * (m / Step(s));
    hide Encode, Decode, SegmentFrom, Pow2, Level, Nibble, Step;
    assert Folded(m) / 16 == s && Folded(m) % 16 == Nibble(m, s);
  }

  /** Encoding what a code decodes to gives the code back: no two codes share a level. */
  lemma EncodeOfDecode(code: byte)
    ensures -0x8000 <= Decode(code) < 0x8000
    ensures Encode(Decode(code)) == code
  {
    hide Xor, Level, Folded, Encode;
    var v := Xor(code, 0x55);
    XorTwice(code, 0x55);
    MaskedByte(code);
    BitsOfByte(v);
    LevelRefolds(v / 16 % 8, v % 16);
    var sample := Decode(code);
    EncodeIsMasked(sample);
    var e := Folded(Magnitude(sample));
    assert e + (if sample >= 0 then 128 else 0) == v;
  }

  lemma BitsOfByte(v: byte)
    ensures v / 16 % 8 * 16 + v % 16 + (if v >= 128 then 128 else 0) == v
  {
  }

  lemma MaskedByte(code: byte)
    ensures Xor(code, 0x55) < 256
  {
    PowersUpToSeven();
    XorHighBit(code, 0x55, 8);
  }

  /** The level of a segment and nibble folds back to them, on either side of zero. */
  lemma LevelRefolds(s: nat, n: nat)
    requires s < 8 && n < 16
    ensures 0 < Level(s, n) < 0x8000
    ensures Folded(Magnitude(Level(s, n))) == s * 16 + n
    ensures Folded(Magnitude(0 - Level(s, n))) == s * 16 + n
  {
    hide Folded;
    SegmentOfSteps(s);
    var d, level := Step(s), Level(s, n);
    if s == 0 {
      FoldsTo(2 * n + 1, s, n);
      FoldsTo(2 * n, s, n);
    } else {
      var q := n + 16;
      LevelInSteps(s, q);
      ProductsGrow(16, q, d);
      ProductsGrow(q + 1, 32, d);
      var product, half := d * q, Pow2(s - 1);
      assert d * (q + 1) == product + d;
      hide Level, Step, Folded, Pow2;
      EighthOfLevel(level, product, half);
      FoldsTo(product + half, s, n);
      FoldsTo(product + half - 1, s, n);
    }
  }

  lemma EighthOfLevel(level: nat, product: nat, half: nat)
    requires half > 0 && level == 8 * product + 8 * half
    ensures level / 8 == product + half && (level - 1) / 8 == product + half - 1
  {
  }

  lemma FoldsTo(m: nat, s: nat, n: nat)
    requires s < 8 && n < 16
    requires var q := if s == 0 then n else n + 16;
             Step(s) * q <= m < Step(s) * q + Step(s)
    ensures m < 4096 && Folded(m) == s * 16 + n
  {
    SegmentOfSteps(s);
    var d, q := Step(s), if s == 0 then n else n + 16;
    QuotientIs(m, d, q);
    ProductsGrow(q + 1, if s == 0 then 16 else 32, d);
    assert d * (q + 1) == d * q + d;
    if s > 0 {
      ProductsGrow(16, q, d);
      StepDivides(m, s);
    }
    assert m <= SEGMENT_END[s];
    SegmentSpans(m);
    assert SegmentFrom(m, 0) == s by { hide SegmentFrom, Step, Pow2, Nibble; }
    hide SegmentFrom, Pow2;
  }

  // ---------------------------------------------------------------------------
  // Sample buffers.

  function EncodeAll(samples: seq<sample>): (codes: seq<byte>)
    ensures |codes| == |samples|
    ensures forall i :: 0 <= i < |samples| ==> codes[i] == Encode(samples[i])
  {
    if samples == [] then [] else
      EncodeIsMasked(samples[0]);
      [Encode(samples[0])] + EncodeAll(samples[1..])
  }

  function DecodeAll(codes: seq<byte>): (samples: seq<sample>)
    ensures |samples| == |codes|
    ensures forall i :: 0 <= i < |codes| ==> samples[i] == Decode(codes[i])
  {
    if codes == [] then [] else
      EncodeOfDecode(codes[0]);
      [Decode(codes[0])] + DecodeAll(codes[1..])
  }

  /** A buffer that goes through the codec keeps every sample to within half a step. */
  lemma {:induction false} BufferErrorBound(samples: seq<sample>)
    ensures |DecodeAll(EncodeAll(samples))| == |samples|
    ensures forall i :: 0 <= i < |samples| ==> Near(samples[i], DecodeAll(EncodeAll(samples))[i])
  {
    hide EncodeAll, DecodeAll, Encode, Decode, Near;
    forall i | 0 <= i < |samples|
      ensures Near(samples[i], DecodeAll(EncodeAll(samples))[i])
    {
      ErrorBound(samples[i]);
    }
  }

  /** Codes survive a decode and an encode unchanged, whatever their number. */
  lemma {:induction false} BufferCodesSurvive(codes: seq<byte>)
    ensures EncodeAll(DecodeAll(codes)) == codes
  {
    hide EncodeAll, DecodeAll, Encode, Decode;
    forall i | 0 <= i < |codes| ensures EncodeAll(DecodeAll(codes))[i] == codes[i] {
      EncodeOfDecode(codes[i]);
    }
  }

  /** One sample, with the search over the segment table. */
  method EncodeSample(value: sample) returns (code: byte)
    ensures code == Encode(value)
  {
    EncodeIsMasked(value);
    hide Xor, Pow2;
    var pcm: int, mask := value, POSITIVE_MASK;
    if pcm < 0 {
      pcm, mask := -pcm - 1, NEGATIVE_MASK;
    }
    pcm := pcm / 8;
    var segment := 0;
    while segment < 8 && pcm > SEGMENT_END[segment]
      invariant segment <= 8
      invariant SegmentFrom(pcm, 0) == SegmentFrom(pcm, segment)
    {
      segment := segment + 1;
    }
    if segment >= 8 {
      return Xor(0x7f, mask);
    }
    code := Xor(segment * 16 + Nibble(pcm, segment), mask);
  }

  /** Encodes `length` samples, or refuses with -1 and writes nothing. */
  method EncodeBuffer(input: array<sample>, length: nat, output: array<byte>, capacity: nat) returns (status: int)
    requires length <= input.Length && capacity <= output.Length
    modifies output
    ensures status == if capacity < length then -1 else 0
    ensures output[..] == if capacity < length then old(output[..])
                          else EncodeAll(input[..length]) + old(output[length..])
  {
    if capacity < length {
      return -1;
    }
    hide EncodeAll, Encode;
    for i := 0 to length
      invariant forall k :: 0 <= k < i ==> output[k] == Encode(input[k])
      invariant forall k :: i <= k < output.Length ==> output[k] == old(output[k])
    {
      output[i] := EncodeSample(input[i]);
    }
    assert output[..] == output[..length] + output[length..];
    assert output[..length] == EncodeAll(input[..length]);
    return 0;
  }

  /** Decodes `length` codes, or refuses with -1 and writes nothing. */
  method DecodeBuffer(input: array<byte>, length: nat, output: array<sample>, capacity: nat) returns (status: int)
    requires length <= input.Length && capacity <= output.Length
    modifies output
    ensures status == if capacity < length then -1 else 0
    ensures output[..] == if capacity < length then old(output[..])
                          else DecodeAll(input[..length]) + old(output[length..])
  {
    if capacity < length {
      return -1;
    }
    hide DecodeAll, Decode;
    for i := 0 to length
      invariant forall k :: 0 <= k < i ==> output[k] == Decode(input[k])
      invariant forall k :: i <= k < output.Length ==> output[k] == old(output[k])
    {
      EncodeOfDecode(input[i]);
      output[i] := Decode(input[i]);
    }
    assert output[..] == output[..length] + output[length..];
    assert output[..length] == DecodeAll(input[..length]);
    return 0;
  }
}
