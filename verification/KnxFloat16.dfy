/** The 16-bit KNX float of datapoint type 9 (section 3.10 of KNX Standard
    03_07_02): value = 0.01 * m * 2^e with 0 <= e <= 15 and -2048 <= m <= 2047.
    Doubles are modelled as reals. */
module KnxFloat16 {
  import opened Bytes
  import opened ByteBuffers
  import opened Wrappers

  function Pow2(e: nat): (p: nat)
    ensures p >= 1
  {
    if e == 0 then 1 else 2 * Pow2(e - 1)
  }

  /** The range that the encoder accepts. */
  predicate InRange(x: real) {
    -671088.64 < x < 670760.96
  }

  function Cents(x: real): real {
    100.0 * x
  }

  predicate Fits(m: real) {
    -2048.0 <= m <= 2047.0
  }

  /** `c / 2^e`. */
  function Scaled(c: real, e: nat): real {
    c / Pow2(e) as real
  }

  /** The cast of a double to an integer drops its fraction. */
  function Trunc(r: real): int {
    if r >= 0.0 then r.Floor else -((-r).Floor)
  }

  /** The least exponent that brings `c` into the range of the mantissa. */
  ghost predicate IsExponent(c: real, e: nat) {
    Fits(Scaled(c, e)) && forall k: nat :: k < e ==> !Fits(Scaled(c, k))
  }

  function ExponentFrom(c: real, e: nat): nat
    requires e <= 15
    decreases 15 - e
  {
    if Fits(Scaled(c, e)) || e == 15 then e else ExponentFrom(c, e + 1)
  }

  function Exponent(x: real): nat {
    ExponentFrom(Cents(x), 0)
  }

  function Mantissa(x: real): int {
    Trunc(Scaled(Cents(x), Exponent(x)))
  }

  predicate Packable(e: int, m: int) {
    0 <= e <= 15 && -2048 <= m <= 2047
  }

  /** The first byte holds the sign, the exponent and the top of the mantissa. */
  function FirstByte(e: byte, high: byte): byte {
    (e << 3) | (high & 0x87)
  }

  function Pack(e: nat, m: int): (bs: seq<byte>)
    requires Packable(e, m)
    ensures |bs| == 2
  {
    [FirstByte(Cast8(e), High(Pattern16(m))), Low(Pattern16(m))]
  }

  function ExponentBits(first: byte): byte {
    (first >> 3) & 0x0F
  }

  /** The exponent bits are overwritten by copies of the sign. */
  function SignExtended(first: byte): byte {
    (first & 0x87) | if first & 0x80 == 0x80 then 0x78 else 0
  }

  function UnpackExponent(bs: seq<byte>): nat
    requires |bs| == 2
  {
    Numeral(ExponentBits(bs[0]))
  }

  function UnpackMantissa(bs: seq<byte>): int
    requires |bs| == 2
  {
    Signed16(Join16(SignExtended(bs[0]), bs[1]))
  }

  function Encode(x: real): (bs: seq<byte>)
    ensures |bs| == 2
  {
    if !InRange(x) then [0, 0]
    else
      ExponentIsLeast(x);
      Pack(Exponent(x), Mantissa(x))
  }

  function Units(m: int, e: nat): real {
    0.01 * m as real * Pow2(e) as real
  }

  function Decode(bs: seq<byte>): real {
    if |bs| == 2 then Units(UnpackMantissa(bs), UnpackExponent(bs)) else 0.0
  }

  // ------------------------------------------------------------ packing

  /** Packing then unpacking is the identity on every exponent and mantissa. */
  lemma PackUnpack(e: nat, m: int)
    requires Packable(e, m)
    ensures UnpackExponent(Pack(e, m)) == e && UnpackMantissa(Pack(e, m)) == m
  {
    var w := Pattern16(m);
    SmallExponent(e);
    SmallMantissa(m);
    FieldsOfFirst(Cast8(e), High(w));
    CastNumeral(e);
    JoinSplit(w);
    SignedPattern(m);
    hide Cast8, Pattern16, FirstByte, ExponentBits, SignExtended, Join16, High, Low, Signed16, Numeral;
  }

  /** The two bytes as one big-endian number: the sign bit, four bits of exponent and
      eleven bits of mantissa in two's complement. */
  lemma PackLayout(e: nat, m: int)
    requires Packable(e, m)
    ensures var bs := Pack(e, m);
      Numeral(bs[0]) * 256 + Numeral(bs[1]) == (if m < 0 then 0x8000 else 0) + 0x800 * e + m % 0x800
  {
    var n := if m < 0 then m + 65536 else m;
    var w := Pattern16(m);
    SmallMantissa(m);
    SmallExponent(e);
    CastNumeral(e);
    Cast16Value(n);
    JoinSplit(w);
    SplitJoin(High(w), Low(w));
    FirstNumeral(Cast8(e), High(w));
    ByteBound(High(w));
    ByteBound(Low(w));
    Below8(High(w));
    hide Cast8, Cast16, FirstByte, Join16, High, Low;
    LayoutOf(e, m, Numeral(High(w)), Numeral(Low(w)));
  }

  lemma FirstNumeral(e: byte, high: byte)
    requires e & 0xF0 == 0 && (high & 0xF8 == 0 || high & 0xF8 == 0xF8)
    ensures Numeral(FirstByte(e, high)) == 8 * Numeral(e) + Numeral(high) - if high & 0xF8 == 0 then 0 else 120
  {
  }

  lemma LayoutOf(e: nat, m: int, high: nat, low: nat)
    requires -2048 <= m <= 2047 && high < 256 && low < 256
    requires high * 256 + low == if m < 0 then m + 65536 else m
    ensures (8 * e + high - if high < 8 then 0 else 120) * 256 + low ==
            (if m < 0 then 0x8000 else 0) + 0x800 * e + m % 0x800
  {
  }

  lemma SmallExponent(e: nat)
    requires e <= 15
    ensures Cast8(e) & 0xF0 == 0
  {
    CastValue(e);
    Below16(Cast8(e));
  }

  lemma Below16(b: byte)
    ensures b as int < 16 <==> b & 0xF0 == 0
  {
  }

  lemma Below8(b: byte)
    ensures b as int < 8 <==> b & 0xF8 == 0
    ensures b as int >= 248 <==> b & 0xF8 == 0xF8
  {
  }

  /** The top five bits of a mantissa's pattern are all equal to its sign. */
  lemma SmallMantissa(m: int)
    requires -2048 <= m <= 2047
    ensures var h := High(Pattern16(m)) & 0xF8; h == 0 || h == 0xF8
  {
    var n := if m < 0 then m + 65536 else m;
    var w := Pattern16(m);
    Cast16Value(n);
    JoinSplit(w);
    SplitJoin(High(w), Low(w));
    Below8(High(w));
    LowBelow256(Low(w));
    hide Cast16, High, Low, Join16;
  }

  lemma LowBelow256(b: byte)
    ensures b as int < 256
  {
  }

  lemma FieldsOfFirst(e: byte, high: byte)
    requires e & 0xF0 == 0 && (high & 0xF8 == 0 || high & 0xF8 == 0xF8)
    ensures ExponentBits(FirstByte(e, high)) == e
    ensures SignExtended(FirstByte(e, high)) == high
  {
  }

  /** Unpacking then packing is the identity on every pair of bytes. */
  lemma UnpackPack(bs: seq<byte>)
    requires |bs| == 2
    ensures Packable(UnpackExponent(bs), UnpackMantissa(bs))
    ensures Pack(UnpackExponent(bs), UnpackMantissa(bs)) == bs
  {
    UnpackRange(bs);
    var w := Join16(SignExtended(bs[0]), bs[1]);
    PatternOfSigned(w);
    SplitJoin(SignExtended(bs[0]), bs[1]);
    CastOfNumeral(ExponentBits(bs[0]));
    FirstAgain(bs[0]);
    hide Cast8, Pattern16, FirstByte, ExponentBits, SignExtended, Join16, High, Low, Signed16, Numeral;
  }

  lemma FirstAgain(first: byte)
    ensures FirstByte(ExponentBits(first), SignExtended(first)) == first
  {
  }

  lemma PatternOfSigned(w: bv16)
    ensures Pattern16(Signed16(w)) == w
  {
    JoinSplit(w);
    SplitJoin(High(w), Low(w));
    ByteBound(High(w));
    ByteBound(Low(w));
    CastOfWord(w);
    hide Cast16, High, Low, Join16, Numeral;
  }

  lemma CastOfWord(w: bv16)
    ensures Cast16(w as int) == w
  {
    WordValue(w);
    CastOfPair(w as int, High(w), Low(w));
    JoinSplit(w);
    hide Cast16, High, Low, Join16, Numeral;
  }

  lemma CastOfPair(n: nat, high: byte, low: byte)
    requires n == Numeral(high) * 256 + Numeral(low)
    ensures Cast16(n) == Join16(high, low)
  {
    hide Cast8, Join16, Numeral;
    ByteBound(low);
    CastOfNumeral(high);
    CastOfNumeral(low);
    Cast16OfPair(n, Numeral(high), Numeral(low));
    hide Cast16;
  }

  lemma Cast16OfPair(n: nat, h: nat, l: nat)
    requires n == h * 256 + l && l < 256
    ensures Cast16(n) == Join16(Cast8(h), Cast8(l))
  {
    hide Cast8, Join16;
    Quotient(h, l);
  }

  lemma WordValue(w: bv16)
    ensures w as int == Numeral(High(w)) * 256 + Numeral(Low(w))
  {
    JoinSplit(w);
    SplitJoin(High(w), Low(w));
    hide High, Low, Join16;
  }

  lemma Quotient(h: nat, l: nat)
    requires l < 256
    ensures (h * 256 + l) / 256 == h && (h * 256 + l) % 256 == l
  {
  }

  lemma UnpackRange(bs: seq<byte>)
    requires |bs| == 2
    ensures Packable(UnpackExponent(bs), UnpackMantissa(bs))
  {
    var h := SignExtended(bs[0]);
    var w := Join16(h, bs[1]);
    ExponentRange(bs[0]);
    SignBits(bs[0]);
    Below8(h);
    SplitJoin(h, bs[1]);
    Negative(h);
    LowBelow256(bs[1]);
    LowBelow256(h);
    hide SignExtended, Join16, High, Low, ExponentBits;
  }

  lemma ExponentRange(first: byte)
    ensures Numeral(ExponentBits(first)) <= 15
  {
  }

  lemma SignBits(first: byte)
    ensures var h := SignExtended(first) & 0xF8; h == 0 || h == 0xF8
    ensures SignExtended(first) & 0xF8 == 0 ==> SignExtended(first) & 0x80 == 0
    ensures SignExtended(first) & 0xF8 == 0xF8 ==> SignExtended(first) & 0x80 != 0
  {
  }

  // ------------------------------------------------------------ the exponent

  /** The encoder stops at the least exponent, and fifteen is always enough. */
  lemma ExponentIsLeast(x: real)
    requires InRange(x)
    ensures Exponent(x) <= 15 && IsExponent(Cents(x), Exponent(x))
    ensures Packable(Exponent(x), Mantissa(x))
  {
    var c := Cents(x);
    LargestExponentFits(c);
    ExponentFromIsLeast(c, 0);
    var s := Scaled(c, Exponent(x));
    assert Fits(s);
    TruncOfFits(s);
  }

  lemma TruncOfFits(s: real)
    requires Fits(s)
    ensures -2048 <= Trunc(s) <= 2047
  {
  }

  lemma LargestExponentFits(c: real)
    requires -67108864.0 < c < 67076096.0
    ensures Fits(Scaled(c, 15))
  {
    assert Pow2(15) == 32768;
  }

  lemma {:induction false} ExponentFromIsLeast(c: real, e: nat)
    requires e <= 15 && Fits(Scaled(c, 15))
    requires forall k: nat :: k < e ==> !Fits(Scaled(c, k))
    ensures ExponentFrom(c, e) <= 15 && IsExponent(c, ExponentFrom(c, e))
    decreases 15 - e
  {
    if !Fits(Scaled(c, e)) && e < 15 {
      ExponentFromIsLeast(c, e + 1);
    }
  }

  // ------------------------------------------------------------ the decoded value

  /** The size, in cents, of one step of the mantissa under exponent `e`. */
  function Step(e: nat): (p: real)
    ensures p >= 1.0
  {
    Pow2(e) as real
  }

  function Multiple(m: int, p: real): real {
    m as real * p
  }

  /** The encoded value in cents. */
  function Kept(x: real): real
    requires InRange(x)
  {
    Multiple(Mantissa(x), Step(Exponent(x)))
  }

  lemma FirstSteps()
    ensures Step(0) == 1.0
  {
  }

  lemma LastSteps()
    ensures Step(15) == 32768.0 && Step(14) == 16384.0
  {
    assert Pow2(14) == 16384;
  }

  lemma StepDoubles(e: nat)
    ensures Step(e + 1) == 2.0 * Step(e)
  {
  }

  lemma {:induction false} StepsGrow(d: nat, e: nat)
    requires d < e
    ensures 2.0 * Step(d) <= Step(e)
    decreases e
  {
    hide Step;
    StepDoubles(e - 1);
    if d < e - 1 {
      StepsGrow(d, e - 1);
    }
  }

  lemma Times(a: real, b: real, p: real)
    requires a <= b && p > 0.0
    ensures a * p <= b * p
  {
  }

  lemma TimesStrict(a: real, b: real, p: real)
    requires a < b && p > 0.0
    ensures a * p < b * p
  {
  }

  lemma MultipleGrows(m: int, n: int, p: real)
    requires m <= n && p > 0.0
    ensures Multiple(m, p) <= Multiple(n, p)
  {
    Times(m as real, n as real, p);
  }

  lemma MultipleNext(m: int, p: real)
    ensures Multiple(m + 1, p) == Multiple(m, p) + p
  {
    assert (m + 1) as real == m as real + 1.0;
  }

  lemma MultipleZero(p: real)
    ensures Multiple(0, p) == 0.0
  {
  }

  /** The multiples at which the exponent and the mantissa change. */
  lemma MultipleEdges(p: real)
    ensures Multiple(2047, p) == 2047.0 * p && Multiple(-2048, p) == -2048.0 * p
    ensures Multiple(2046, p) == 2046.0 * p && Multiple(-2047, p) == -2047.0 * p
    ensures Multiple(1023, p) == 1023.0 * p && Multiple(1024, p) == 1024.0 * p
    ensures Multiple(-1024, p) == -1024.0 * p
  {
  }

  lemma MultipleInBounds(m: int, p: real)
    requires -2048 <= m <= 2047 && p > 0.0
    ensures -2048.0 * p <= Multiple(m, p) <= 2047.0 * p
  {
    hide Multiple;
    MultipleEdges(p);
    MultipleGrows(m, 2047, p);
    MultipleGrows(-2048, m, p);
  }

  lemma QuotientTimes(c: real, p: real)
    requires p > 0.0
    ensures (c / p) * p == c
  {
  }

  lemma FitsMeaning(c: real, e: nat)
    ensures Fits(Scaled(c, e)) <==> -2048.0 * Step(e) <= c <= 2047.0 * Step(e)
  {
    hide Pow2;
    FitsTimes(c / Step(e), Step(e));
    QuotientTimes(c, Step(e));
  }

  lemma FitsTimes(s: real, p: real)
    requires p > 0.0
    ensures Fits(s) <==> -2048.0 * p <= s * p <= 2047.0 * p
  {
    if s < -2048.0 { TimesStrict(s, -2048.0, p); } else { Times(-2048.0, s, p); }
    if s > 2047.0 { TimesStrict(2047.0, s, p); } else { Times(s, 2047.0, p); }
  }

  /** `m` is `c` divided by the step `p`, without its fraction. */
  predicate Chops(c: real, p: real, m: int) {
    && (c >= 0.0 ==> m >= 0 && Multiple(m, p) <= c < Multiple(m, p) + p)
    && (c <= 0.0 ==> m <= 0 && Multiple(m, p) - p < c <= Multiple(m, p))
  }

  lemma TruncOf(s: real, m: int)
    requires m == Trunc(s)
    ensures s >= 0.0 ==> m >= 0 && m as real <= s < (m + 1) as real
    ensures s <= 0.0 ==> m <= 0 && (m - 1) as real < s <= m as real
  {
  }

  lemma QuotientSign(c: real, p: real)
    requires p > 0.0
    ensures c >= 0.0 ==> c / p >= 0.0
    ensures c <= 0.0 ==> c / p <= 0.0
  {
  }

  lemma TimesAtLeast(m: int, s: real, p: real)
    requires p > 0.0
    ensures m as real <= s ==> Multiple(m, p) <= s * p
    ensures s < m as real ==> s * p < Multiple(m, p)
  {
    if m as real <= s {
      Times(m as real, s, p);
    } else {
      TimesStrict(s, m as real, p);
    }
  }

  lemma TimesAtMost(m: int, s: real, p: real)
    requires p > 0.0
    ensures s <= m as real ==> s * p <= Multiple(m, p)
    ensures m as real < s ==> Multiple(m, p) < s * p
  {
    if s <= m as real {
      Times(s, m as real, p);
    } else {
      TimesStrict(m as real, s, p);
    }
  }

  lemma TruncChops(c: real, p: real)
    requires p > 0.0
    ensures Chops(c, p, Trunc(c / p))
  {
    hide Trunc, Multiple;
    var s := c / p;
    var m := Trunc(s);
    TruncOf(s, m);
    QuotientTimes(c, p);
    QuotientSign(c, p);
    MultipleNext(m, p);
    MultipleNext(m - 1, p);
    TimesAtLeast(m, s, p);
    TimesAtLeast(m + 1, s, p);
    TimesAtMost(m, s, p);
    TimesAtMost(m - 1, s, p);
  }

  /** What the encoder establishes, in terms of the step of its exponent. */
  lemma Encoded(x: real)
    requires InRange(x)
    ensures var e := Exponent(x);
      && e <= 15
      && -2048.0 * Step(e) <= Cents(x) <= 2047.0 * Step(e)
      && (e > 0 ==> Cents(x) < -2048.0 * Step(e - 1) || 2047.0 * Step(e - 1) < Cents(x))
      && Chops(Cents(x), Step(e), Mantissa(x))
      && -2048 <= Mantissa(x) <= 2047
  {
    hide Trunc, Chops, Exponent;
    var c, e := Cents(x), Exponent(x);
    ExponentIsLeast(x);
    FitsMeaning(c, e);
    if e > 0 {
      FitsMeaning(c, e - 1);
    }
    TruncChops(c, Step(e));
  }

  lemma ZeroMantissa()
    ensures UnpackMantissa([0, 0]) == 0
  {
    NoSign();
    SplitJoin(0, 0);
    hide SignExtended, Join16, High, Low;
  }

  lemma NoSign()
    ensures SignExtended(0) == 0
  {
  }

  /** What a byte pair stands for, in cents. */
  function PairCents(bs: seq<byte>): real
    requires |bs| == 2
  {
    Multiple(UnpackMantissa(bs), Step(UnpackExponent(bs)))
  }

  lemma DecodeIsCents(bs: seq<byte>)
    requires |bs| == 2
    ensures Decode(bs) == 0.01 * PairCents(bs)
  {
    hide UnpackExponent, UnpackMantissa, Pow2;
    Associate(UnpackMantissa(bs) as real, Step(UnpackExponent(bs)));
  }

  lemma Associate(m: real, p: real)
    ensures 0.01 * m * p == 0.01 * (m * p)
  {
  }

  lemma PairOfEncoded(x: real)
    requires InRange(x)
    ensures PairCents(Encode(x)) == Kept(x)
  {
    hide Pack, UnpackExponent, UnpackMantissa, Exponent, Mantissa, Step, Multiple;
    ExponentIsLeast(x);
    PackUnpack(Exponent(x), Mantissa(x));
  }

  lemma PairOfZero()
    ensures PairCents([0, 0]) == 0.0
  {
    hide UnpackExponent, UnpackMantissa, Step;
    ZeroMantissa();
  }

  /** Decoding gives the kept value back, in units. */
  lemma DecodeEncode(x: real)
    ensures Decode(Encode(x)) == if InRange(x) then 0.01 * Kept(x) else 0.0
  {
    hide PairCents, Decode, Pack, Exponent, Mantissa, Kept;
    DecodeIsCents(Encode(x));
    if InRange(x) {
      PairOfEncoded(x);
    } else {
      PairOfZero();
    }
  }

  // ------------------------------------------------------------ the error

  function Abs(r: real): real {
    if r < 0.0 then -r else r
  }

  lemma KeptError(x: real)
    requires InRange(x)
    ensures var c, d := Cents(x), Kept(x);
      && (c >= 0.0 ==> 0.0 <= d <= c)
      && (c <= 0.0 ==> c <= d <= 0.0)
      && Abs(c - d) < Step(Exponent(x))
  {
    hide Exponent, Mantissa, Step, Multiple;
    Encoded(x);
    var m, p := Mantissa(x), Step(Exponent(x));
    MultipleZero(p);
    if m >= 0 { MultipleGrows(0, m, p); } else { MultipleGrows(m, 0, p); }
  }

  lemma StepOfExponent(x: real)
    requires InRange(x)
    ensures Exponent(x) == 0 ==> Step(Exponent(x)) == 1.0
    ensures Exponent(x) > 0 ==> Step(Exponent(x)) < 2.0 * Abs(Cents(x)) / 2047.0
  {
    hide Exponent, Mantissa, Step, Chops;
    Encoded(x);
    FirstSteps();
    var c, e := Cents(x), Exponent(x);
    if e > 0 {
      StepDoubles(e - 1);
      assert Abs(c) > 2047.0 * Step(e - 1);
    }
  }

  /** The decoded value lies between zero and the number, and is off by less
      than one cent or less than the fraction 2/2047 of the number. */
  lemma DecodedError(x: real)
    requires -671088.64 < x < 670760.96
    ensures var d := Decode(Encode(x));
      && (x >= 0.0 ==> 0.0 <= d <= x)
      && (x <= 0.0 ==> x <= d <= 0.0)
      && (Exponent(x) == 0 ==> Abs(x - d) < 0.01)
      && (Exponent(x) > 0 ==> Abs(x - d) < 2.0 * Abs(x) / 2047.0)
  {
    hide Decode, Encode, Exponent, Mantissa, Step, Kept;
    DecodeEncode(x);
    KeptError(x);
    StepOfExponent(x);
  }

  /** Outside the open range the bytes are zero, and stand for zero. */
  lemma OutOfRangeIsZero(x: real)
    requires x <= -671088.64 || x >= 670760.96
    ensures Encode(x) == [0x00, 0x00] && Decode(Encode(x)) == 0.0
  {
    DecodeEncode(x);
    hide Decode, Exponent, Mantissa;
  }

  // ------------------------------------------------------------ idempotence on values

  lemma {:induction false} StepSplits(d: nat, e: nat)
    requires d <= e
    ensures Step(e) == Multiple(Pow2(e - d), Step(d))
    decreases e
  {
    hide Step;
    if d < e {
      StepSplits(d, e - 1);
      StepDoubles(e - 1);
      MultipleDoubles(Pow2(e - 1 - d), Step(d));
    }
  }

  lemma MultipleDoubles(n: int, p: real)
    ensures Multiple(2 * n, p) == 2.0 * Multiple(n, p)
  {
  }

  lemma MultipleOfMultiple(m: int, n: int, p: real)
    ensures Multiple(m, Multiple(n, p)) == Multiple(m * n, p)
  {
    assert m as real * (n as real) == (m * n) as real;
  }

  /** A whole number of steps loses nothing. */
  lemma ChopsMultiple(n: int, p: real, m: int)
    requires p > 0.0 && Chops(Multiple(n, p), p, m)
    ensures m == n
  {
    hide Multiple;
    MultipleNext(n, p);
    MultipleNext(m, p);
    if n < m {
      MultipleGrows(n + 1, m, p);
    } else if m < n {
      MultipleGrows(m + 1, n, p);
    }
    MultipleZero(p);
    if n >= 0 { MultipleGrows(0, n, p); } else { MultipleGrows(n, 0, p); }
  }

  /** The two byte pairs whose value the range check turns away. */
  predicate Extreme(bs: seq<byte>) {
    bs == [0xF8, 0x00] || bs == [0x7F, 0xFF]
  }

  lemma LowestPair()
    ensures UnpackExponent([0xF8, 0x00]) == 15 && UnpackMantissa([0xF8, 0x00]) == -2048
  {
    assert ExponentBits(0xF8) == 15 && SignExtended(0xF8) == 0xF8;
    SplitJoin(0xF8, 0);
    assert (0xF8 as byte) & 0x80 != 0;
    hide SignExtended, ExponentBits, Join16, High, Low;
  }

  lemma HighestPair()
    ensures UnpackExponent([0x7F, 0xFF]) == 15 && UnpackMantissa([0x7F, 0xFF]) == 2047
  {
    assert ExponentBits(0x7F) == 15 && SignExtended(0x7F) == 0x07;
    SplitJoin(0x07, 0xFF);
    assert (0x07 as byte) & 0x80 == 0;
    hide SignExtended, ExponentBits, Join16, High, Low;
  }

  lemma ExtremeFields(bs: seq<byte>)
    requires |bs| == 2
    ensures Extreme(bs) <==> UnpackExponent(bs) == 15 && (UnpackMantissa(bs) == -2048 || UnpackMantissa(bs) == 2047)
  {
    hide Pack, UnpackExponent, UnpackMantissa;
    LowestPair();
    HighestPair();
    UnpackPack(bs);
    UnpackPack([0xF8, 0x00]);
    UnpackPack([0x7F, 0xFF]);
  }

  /** The range check turns away exactly the two extremes. */
  lemma PairInRange(e: nat, m: int)
    requires Packable(e, m)
    ensures -67108864.0 < Multiple(m, Step(e)) < 67076096.0 <==> !(e == 15 && (m == -2048 || m == 2047))
  {
    hide Step, Multiple;
    LastSteps();
    var p := Step(e);
    MultipleEdges(p);
    MultipleInBounds(m, p);
    if e < 14 {
      StepsGrow(e, 14);
    } else if e == 15 && -2048 < m < 2047 {
      MultipleGrows(m, 2046, p);
      MultipleGrows(-2047, m, p);
    }
  }

  lemma FitsAt(c: real, e: nat, m: int)
    requires Packable(e, m) && c == Multiple(m, Step(e))
    ensures Fits(Scaled(c, e))
  {
    hide Step, Scaled, Fits, Multiple;
    MultipleInBounds(m, Step(e));
    FitsMeaning(c, e);
  }

  lemma KeptMultiple(x: real, e: nat, m: int)
    requires InRange(x) && Packable(e, m) && Cents(x) == Multiple(m, Step(e))
    ensures Kept(x) == Cents(x)
  {
    hide Exponent, Mantissa, Step, Pow2, Chops, Scaled, Fits, Multiple;
    var d := Exponent(x);
    Encoded(x);
    FitsAt(Cents(x), e, m);
    ExponentIsLeast(x);
    assert d <= e;
    StepSplits(d, e);
    MultipleOfMultiple(m, Pow2(e - d), Step(d));
    ChopsMultiple(m * Pow2(e - d), Step(d), Mantissa(x));
  }

  /** Encoding a decoded value gives that value again, for every byte pair
      except the two whose value is outside the encoder's range. */
  lemma DecodeIsIdempotent(bs: seq<byte>)
    requires |bs| == 2
    ensures Decode(Encode(Decode(bs))) == Decode(bs) <==> !Extreme(bs)
    ensures Extreme(bs) ==> Encode(Decode(bs)) == [0, 0]
  {
    hide UnpackExponent, UnpackMantissa, Step, Decode, Kept, Pack, Exponent, Mantissa, Extreme, Multiple;
    var e, m, v := UnpackExponent(bs), UnpackMantissa(bs), Decode(bs);
    UnpackRange(bs);
    DecodeIsCents(bs);
    PairInRange(e, m);
    ExtremeFields(bs);
    DecodeEncode(v);
    assert Cents(v) == Multiple(m, Step(e));
    if InRange(v) {
      KeptMultiple(v, e, m);
    }
  }

  /** The exponent is the least one that can hold the mantissa. */
  predicate Normalised(e: nat, m: int) {
    e == 0 || m < -1024 || m > 1023
  }

  lemma ExponentOfPair(x: real, e: nat, m: int)
    requires InRange(x) && Packable(e, m) && Cents(x) == Multiple(m, Step(e))
    ensures Exponent(x) == e <==> Normalised(e, m)
    ensures Exponent(x) == e ==> Mantissa(x) == m
  {
    hide Exponent, Mantissa, Step, Multiple, Scaled;
    Encoded(x);
    ExponentIsLeast(x);
    FitsAt(Cents(x), e, m);
    var p := Step(e);
    if Exponent(x) == e {
      ChopsMultiple(m, p, Mantissa(x));
    }
    MultipleEdges(p);
    if e > 0 {
      StepDoubles(e - 1);
      FitsMeaning(Cents(x), e - 1);
      if m > 1023 {
        MultipleGrows(1024, m, p);
        if Exponent(x) < e - 1 { StepsGrow(Exponent(x), e - 1); }
      } else if m < -1024 {
        MultipleNext(-1025, p);
        MultipleGrows(m, -1025, p);
        if Exponent(x) < e - 1 { StepsGrow(Exponent(x), e - 1); }
      } else {
        MultipleGrows(m, 1023, p);
        MultipleGrows(-1024, m, p);
      }
    }
  }

  /** The bytes themselves survive decoding and encoding exactly when they are
      normalised and in range. */
  lemma BytesSurvive(bs: seq<byte>)
    requires |bs| == 2
    ensures Encode(Decode(bs)) == bs <==> !Extreme(bs) && Normalised(UnpackExponent(bs), UnpackMantissa(bs))
  {
    hide UnpackExponent, UnpackMantissa, Step, Decode, Kept, Pack, Exponent, Mantissa, Multiple, Normalised;
    var e, m, v := UnpackExponent(bs), UnpackMantissa(bs), Decode(bs);
    UnpackPack(bs);
    DecodeIsCents(bs);
    PairInRange(e, m);
    ExtremeFields(bs);
    assert Cents(v) == Multiple(m, Step(e));
    if InRange(v) {
      ExponentIsLeast(v);
      ExponentOfPair(v, e, m);
      PackUnpack(Exponent(v), Mantissa(v));
    }
  }

  // ------------------------------------------------------------ monotonicity

  /** `x` is the largest number of exponent `k`, and `y` lies within the step
      above it, under the next exponent. */
  predicate AcrossEdge(x: real, y: real, k: nat) {
    Cents(x) == 2047.0 * Step(k) && 2047.0 * Step(k) < Cents(y) < 2048.0 * Step(k)
  }

  lemma MantissasGrow(x: real, y: real)
    requires InRange(x) && InRange(y) && x <= y && Exponent(x) == Exponent(y)
    ensures Kept(x) <= Kept(y)
  {
    hide Exponent, Mantissa, Step, Multiple;
    Encoded(x);
    Encoded(y);
    var m, n, p := Mantissa(x), Mantissa(y), Step(Exponent(x));
    if m > n {
      MultipleNext(n, p);
      MultipleGrows(n + 1, m, p);
    } else {
      MultipleGrows(m, n, p);
    }
  }

  /** Below zero the kept values never fall. */
  lemma KeptNegative(x: real, y: real)
    requires InRange(x) && InRange(y) && x <= y <= 0.0
    ensures Kept(x) <= Kept(y)
  {
    hide Exponent, Mantissa, Step, Multiple;
    Encoded(x);
    Encoded(y);
    var d, e := Exponent(x), Exponent(y);
    if d == e {
      MantissasGrow(x, y);
    } else if d < e {
      if d < e - 1 { StepsGrow(d, e - 1); }
      assert false;
    } else {
      StepsGrow(e, d);
      StepDoubles(d - 1);
      if e < d - 1 { StepsGrow(e, d - 1); }
      MultipleEdges(Step(d));
      MultipleInBounds(Mantissa(y), Step(e));
      if Mantissa(x) > -1024 {
        MultipleNext(Mantissa(x) - 1, Step(d));
        MultipleGrows(-1024, Mantissa(x) - 1, Step(d));
      } else {
        MultipleGrows(Mantissa(x), -1024, Step(d));
      }
    }
  }

  /** From zero up the kept values fall only across an edge. */
  lemma KeptPositive(x: real, y: real)
    requires InRange(x) && InRange(y) && 0.0 <= x <= y
    ensures Kept(x) <= Kept(y) || AcrossEdge(x, y, Exponent(x))
  {
    hide Exponent, Mantissa, Step, Multiple;
    Encoded(x);
    Encoded(y);
    var d, e, m, n := Exponent(x), Exponent(y), Mantissa(x), Mantissa(y);
    if d == e {
      MantissasGrow(x, y);
    } else if e < d {
      if e < d - 1 { StepsGrow(e, d - 1); }
      assert false;
    } else {
      KeptAtMost(x);
      KeptAtLeast(y);
      StepDoubles(e - 1);
      if d < e - 1 { StepsGrow(d, e - 1); }
      MultipleEdges(Step(e));
      MultipleEdges(Step(d));
      if n >= 1024 {
        MultipleGrows(1024, n, Step(e));
      } else if m <= 2046 {
        MultipleGrows(m, 2046, Step(d));
        MultipleGrows(1023, n, Step(e));
      } else {
        MultipleGrows(1023, n, Step(e));
        MultipleNext(n, Step(e));
      }
    }
  }

  lemma KeptAtMost(x: real)
    requires InRange(x) && x >= 0.0
    ensures Kept(x) <= 2047.0 * Step(Exponent(x))
  {
    hide Exponent, Mantissa, Step, Multiple;
    Encoded(x);
  }

  /** A mantissa above the first exponent is never below 1023. */
  lemma KeptAtLeast(y: real)
    requires InRange(y) && y >= 0.0 && Exponent(y) > 0
    ensures Mantissa(y) >= 1023
  {
    hide Exponent, Mantissa, Step, Multiple;
    Encoded(y);
    var n, p := Mantissa(y), Step(Exponent(y));
    StepDoubles(Exponent(y) - 1);
    MultipleEdges(p);
    if n < 1023 {
      MultipleNext(n, p);
      MultipleGrows(n + 1, 1023, p);
    }
  }

  /** Across an edge the kept value falls by one step of the lower exponent. */
  lemma EdgeFall(x: real, y: real, k: nat)
    requires InRange(x) && InRange(y) && AcrossEdge(x, y, k)
    ensures Exponent(x) == k && Mantissa(x) == 2047
    ensures Exponent(y) == k + 1 && Mantissa(y) == 1023
    ensures Kept(x) - Kept(y) == Step(k)
  {
    hide Exponent, Mantissa, Step, Multiple;
    Encoded(x);
    Encoded(y);
    if k > 0 { StepDoubles(k - 1); }
    ExponentOf(x, k);
    StepDoubles(k);
    ExponentOf(y, k + 1);
    MultipleEdges(Step(k));
    MultipleEdges(Step(k + 1));
    ChopsMultiple(2047, Step(k), Mantissa(x));
    if Mantissa(y) > 1023 {
      MultipleGrows(1024, Mantissa(y), Step(k + 1));
    }
    KeptAtLeast(y);
  }

  /** The exponent is the only one that fits while the one below does not. */
  lemma ExponentOf(x: real, k: nat)
    requires InRange(x) && 0.0 <= Cents(x) <= 2047.0 * Step(k)
    requires k > 0 ==> 2047.0 * Step(k - 1) < Cents(x)
    ensures Exponent(x) == k
  {
    hide Exponent, Mantissa, Step, Multiple;
    Encoded(x);
    var e := Exponent(x);
    if k < e - 1 { StepsGrow(k, e - 1); }
    if e < k - 1 { StepsGrow(e, k - 1); }
  }

  /** For numbers in order, the decoded values are in order unless the pair
      lies across an edge between two exponents, and then they fall by one
      step of the lower exponent: half a step of the higher. */
  lemma DecodedFallsOnlyAcrossEdges(x: real, y: real)
    requires InRange(x) && InRange(y) && x <= y
    ensures Decode(Encode(y)) < Decode(Encode(x)) <==> exists k: nat :: AcrossEdge(x, y, k)
    ensures forall k: nat :: AcrossEdge(x, y, k) ==>
      && Exponent(x) == k && Exponent(y) == k + 1
      && Decode(Encode(x)) - Decode(Encode(y)) == 0.01 * Step(k)
  {
    hide Exponent, Mantissa, Step, Kept, Encode, Decode;
    DecodeEncode(x);
    DecodeEncode(y);
    forall k: nat | AcrossEdge(x, y, k)
      ensures Exponent(x) == k && Exponent(y) == k + 1 && Kept(x) - Kept(y) == Step(k)
    {
      EdgeFall(x, y, k);
    }
    if y <= 0.0 {
      KeptNegative(x, y);
    } else if x >= 0.0 {
      KeptPositive(x, y);
    } else {
      KeptError(x);
      KeptError(y);
    }
  }

  /** A pair across the lowest edge: 20.47 is kept as it is, 20.475 becomes 20.46. */
  lemma LowestEdge()
    ensures InRange(20.47) && InRange(20.475) && AcrossEdge(20.47, 20.475, 0)
    ensures Decode(Encode(20.475)) == Decode(Encode(20.47)) - 0.01
  {
    FirstSteps();
    assert AcrossEdge(20.47, 20.475, 0);
    hide Decode, Encode, Step, AcrossEdge;
    DecodedFallsOnlyAcrossEdges(20.47, 20.475);
  }

  // ------------------------------------------------------------ the conversions themselves

  lemma HalfScaled(c: real, e: nat)
    ensures Scaled(c, e + 1) == Scaled(c, e) / 2.0
  {
    StepDoubles(e);
    HalfQuotient(c, Step(e));
    hide Pow2;
  }

  lemma HalfQuotient(c: real, p: real)
    requires p > 0.0
    ensures c / (2.0 * p) == (c / p) / 2.0
  {
  }

  lemma LeastIsUnique(c: real, d: nat, e: nat)
    requires IsExponent(c, d) && IsExponent(c, e)
    ensures d == e
  {
  }

  method ToData(number: real) returns (data: array<byte>)
    ensures fresh(data) && data[..] == Encode(number)
  {
    hide Pow2, Scaled, Fits, Cast8, Pattern16, High, Low, Trunc, Exponent;
    data := new byte[2](_ => 0);
    if number <= -671088.64 {
      return;
    }
    if number >= 670760.96 {
      return;
    }
    var cents := 100.0 * number;
    var exponent: byte := 0;
    var mantisse := cents;
    ghost var e: nat := 0;
    ScaledByOne(cents);
    ExponentIsLeast(number);
    while !Fits(mantisse)
      invariant exponent == Cast8(e) && mantisse == Scaled(cents, e)
      invariant forall k: nat :: k < e ==> !Fits(Scaled(cents, k))
      decreases Exponent(number) - e
    {
      if Exponent(number) < e {
        assert false;
      }
      HalfScaled(cents, e);
      CastSum(e, 1);
      CastValue(1);
      mantisse := mantisse / 2.0;
      exponent := exponent + 1;
      e := e + 1;
    }
    LeastIsUnique(cents, e, Exponent(number));
    var mantisseBytes := new ByteBufferWriter();
    TruncOfFits(mantisse);
    mantisseBytes.WriteInt16(Trunc(mantisse));
    data[0] := (exponent << 3) | (mantisseBytes.data[0] & 0x87);
    data[1] := mantisseBytes.data[1];
  }

  lemma ScaledByOne(c: real)
    ensures Scaled(c, 0) == c
    ensures Cast8(0) == 0
  {
  }

  lemma SignPatch(first: byte)
    ensures SignExtended(first) == if first & 0x80 == 0x80 then (first & 0x87) | 0x78 else first & 0x87
  {
  }

  lemma ReadPair(high: byte, low: byte, v: int16, rest: seq<byte>)
    requires ReadValue(KInt16, [high, low]) == Ok(Int16(v), rest)
    ensures v == Signed16(Join16(high, low))
  {
    hide Signed16, Join16;
  }

  /** The mantissa, from a copy of the bytes in which the sign overwrites the exponent. */
  method ReadMantissa(data: seq<byte>) returns (mantisse: int16)
    requires |data| == 2
    ensures mantisse == UnpackMantissa(data)
  {
    hide Signed16, Join16, SignExtended, ReadValue;
    var mData := new byte[2](_ => 0);
    mData[0] := data[0] & 0x87;
    mData[1] := data[1];
    if data[0] & 0x80 == 0x80 {
      mData[0] := mData[0] | 0x78;
    }
    SignPatch(data[0]);
    assert mData[..] == [SignExtended(data[0]), data[1]];
    var reader := new ByteBufferReader(mData[..]);
    mantisse := reader.ReadInt16();
    ReadPair(SignExtended(data[0]), data[1], mantisse, reader.Rest());
  }

  method ToValue(data: seq<byte>) returns (value: real)
    ensures value == Decode(data)
  {
    hide Units, UnpackMantissa;
    if |data| == 2 {
      var mantisse := ReadMantissa(data);
      var exp := (data[0] >> 3) & 0x0F;
      value := Units(mantisse, exp as nat);
    } else {
      value := 0.0;
    }
  }
}
