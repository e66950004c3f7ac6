/** µ-law expansion as in ITU-T Recommendation G.711 (µ-law, Tables 2a and
    2b), and the 16-bit decoder of the `alawmulaw` package that the audio
    transformer calls for each byte. */
module G711 {

  type Byte = b: int | 0 <= b < 256

  function Pow2(n: nat): (r: nat)
    ensures r >= 1
  {
    if n == 0 then 1 else 2 * Pow2(n - 1)
  }

  /** A µ-law code word is transmitted with all bits inverted. */
  function Inverted(u: Byte): Byte
  {
    255 - u
  }

  /** Sign bit of the inverted word: 1 for a negative sample. */
  function SignBit(u: Byte): nat
  {
    Inverted(u) / 128
  }

  /** Segment number (three bits). */
  function Segment(u: Byte): nat
  {
    (Inverted(u) / 16) % 8
  }

  /** Quantisation interval within the segment (four bits). */
  function Interval(u: Byte): nat
  {
    Inverted(u) % 16
  }

  /** The decoder output value of Tables 2a/2b on the 14-bit scale
      (magnitudes 0 to 8031): ((2q + 33) * 2^s) - 33 with sign. */
  function Expand(u: Byte): int
  {
    var magnitude := (2 * Interval(u) + 33) * Pow2(Segment(u)) - 33;
    if SignBit(u) == 1 then -magnitude else magnitude
  }

  /** `decodeTable` of the library: the segment base values on the 16-bit scale. */
  const DecodeTable: seq<nat> := [0, 132, 396, 924, 1980, 4092, 8316, 16764]

  /** The library's `decodeSample`: invert, split into sign, exponent and
      mantissa, then `decodeTable[exponent] + (mantissa << (exponent + 3))`,
      negated when the sign bit is set. */
  function DecodeSample(u: Byte): int
  {
    var c := Inverted(u);
    var exponent := (c / 16) % 8;
    var mantissa := c % 16;
    var sample := DecodeTable[exponent] + mantissa * Pow2(exponent + 3);
    if c / 128 != 0 then -sample else sample
  }

  /** The three fields of the inverted word, as numbers. */
  lemma Fields(u: Byte)
    ensures SignBit(u) <= 1 && Segment(u) < 8 && Interval(u) < 16
    ensures Inverted(u) == 128 * SignBit(u) + 16 * Segment(u) + Interval(u)
  {
  }

  lemma Pow2Shift3(e: nat)
    ensures Pow2(e + 3) == 8 * Pow2(e)
  {
    assert Pow2(e + 3) == 2 * Pow2(e + 2) == 4 * Pow2(e + 1) == 8 * Pow2(e);
  }

  lemma SegmentBase(e: nat)
    requires e < 8
    ensures DecodeTable[e] + 132 == 132 * Pow2(e)
    ensures Pow2(e) <= 128
  {
    if e == 0 {
    } else if e == 1 {
    } else if e == 2 {
      assert Pow2(2) == 4;
    } else if e == 3 {
      assert Pow2(3) == 8;
    } else if e == 4 {
      assert Pow2(4) == 16;
    } else if e == 5 {
      assert Pow2(5) == 32;
    } else if e == 6 {
      assert Pow2(6) == 64;
    } else {
      assert Pow2(7) == 128;
    }
  }

  /** The segment base plus the shifted mantissa is four times the G.711 value. */
  lemma ScaledExpansion(m: int, p: int, base: int)
    requires base + 132 == 132 * p
    ensures base + m * (8 * p) == 4 * ((2 * m + 33) * p - 33)
  {
  }

  /** The library decoder is the G.711 expansion scaled by four, i.e. the
      14-bit decoder value placed in a 16-bit sample. */
  lemma DecodeMatchesG711(u: Byte)
    ensures DecodeSample(u) == 4 * Expand(u)
  {
    var e, m := Segment(u), Interval(u);
    Fields(u);
    SegmentBase(e);
    Pow2Shift3(e);
    ScaledExpansion(m, Pow2(e), DecodeTable[e]);
    assert Inverted(u) / 128 != 0 <==> SignBit(u) == 1;
  }

  /** Every decoded sample fits a signed 16-bit integer. */
  lemma DecodeSampleRange(u: Byte)
    ensures -32124 <= DecodeSample(u) <= 32124
  {
    var e, q := Segment(u), Interval(u);
    Fields(u);
    SegmentBase(e);
    DecodeMatchesG711(u);
    var p := Pow2(e);
    assert (2 * q + 33) * p <= 63 * p by {
      assert 2 * q + 33 <= 63;
    }
    assert 63 * p <= 63 * 128;
  }

  /** Code words that differ only in the sign bit decode to opposite values. */
  lemma DecodeOddSymmetric(u: Byte)
    requires u < 128
    ensures DecodeSample(u) == -DecodeSample(u + 128)
  {
    Fields(u);
    Fields(u + 128);
    DecodeMatchesG711(u);
    DecodeMatchesG711(u + 128);
    assert Inverted(u) == Inverted(u + 128) + 128;
    assert SignBit(u) == 1 && SignBit(u + 128) == 0;
    assert Segment(u) == Segment(u + 128) && Interval(u) == Interval(u + 128);
  }

  /** Multiplication by a non-negative factor keeps order; stated apart so
      that `MagnitudeMonotone` sees only these instances of it. */
  lemma MulLeft(a: int, b: int, p: int)
    requires a <= b && p >= 0
    ensures a * p <= b * p
  {
  }

  lemma MulLeftStrict(a: int, b: int, p: int)
    requires a < b && p >= 1
    ensures a * p < b * p
  {
  }

  /** The G.711 magnitude grows strictly with the 7-bit field value 16s + q. */
  lemma MagnitudeMonotone(es: nat, qs: nat, el: nat, ql: nat)
    requires es < 8 && el < 8 && qs < 16 && ql < 16
    requires 16 * es + qs < 16 * el + ql
    ensures (2 * qs + 33) * Pow2(es) < (2 * ql + 33) * Pow2(el)
  {
    var ps, pl := Pow2(es), Pow2(el);
    if es < el {
      Pow2Monotone(es + 1, el);
      assert Pow2(es + 1) == 2 * ps;
      MulLeftStrict(2 * qs + 33, 64, ps);
      MulLeft(32, 2 * ql + 33, pl);
    } else {
      MulLeftStrict(2 * qs + 33, 2 * ql + 33, ps);
    }
  }

  /** Within the positive half (0x80..0xFF) a larger code word decodes to a
      smaller sample: the transmitted word counts the magnitude down. */
  lemma DecodeMonotonePositive(u: Byte, v: Byte)
    requires 128 <= u < v
    ensures 0 <= DecodeSample(v) < DecodeSample(u)
  {
    Fields(u);
    Fields(v);
    DecodeMatchesG711(u);
    DecodeMatchesG711(v);
    MagnitudeMonotone(Segment(v), Interval(v), Segment(u), Interval(u));
  }

  lemma {:induction false} Pow2Monotone(a: nat, b: nat)
    requires a <= b
    ensures Pow2(a) <= Pow2(b)
    decreases b
  {
    if a < b {
      Pow2Monotone(a, b - 1);
    }
  }
}
