/** Unsigned 8- and 16-bit words and the casts between them and lengths. */
module Bytes {

  type byte = bv8
  type int16 = x: int | -32768 <= x < 32768

  /** `static_cast<std::uint8_t>` of a length: the number modulo 256. */
  function Cast8(n: nat): byte {
    if n == 0 then 0 else Cast8(n - 1) + 1
  }

  lemma Increment(b: byte)
    ensures b as int < 255 ==> (b + 1) as int == b as int + 1
    ensures b as int == 255 ==> b + 1 == 0
  {
  }

  /** `++` on `std::uint8_t`, which wraps around. */
  function Successor(b: byte): byte {
    b + 1
  }

  lemma CastSuccessor(n: nat)
    ensures Cast8(n + 1) == Successor(Cast8(n))
  {
  }

  lemma SameNumber(a: byte, b: byte)
    requires a as int == b as int
    ensures a == b
  {
  }

  function Numeral(b: byte): nat {
    b as int
  }

  predicate Above(a: byte, b: byte) {
    a > b
  }

  lemma AboveIsNumeric(a: byte, b: byte)
    ensures Above(a, b) <==> Numeral(a) > Numeral(b)
    ensures a == b <==> Numeral(a) == Numeral(b)
  {
  }

  lemma ByteBound(b: byte)
    ensures Numeral(b) < 256
  {
  }

  lemma {:induction false} CastValue(n: nat)
    requires n < 256
    ensures Cast8(n) as int == n
  {
    if n > 0 {
      CastValue(n - 1);
      Increment(Cast8(n - 1));
    }
  }

  lemma CastNumeral(n: nat)
    requires n < 256
    ensures Numeral(Cast8(n)) == n
  {
    CastValue(n);
    hide Cast8;
  }

  lemma CastOfValue(b: byte)
    ensures Cast8(b as int) == b
  {
    CastValue(b as int);
    SameNumber(Cast8(b as int), b);
  }

  lemma CastOfNumeral(b: byte)
    ensures Cast8(Numeral(b)) == b
  {
    CastOfValue(b);
    hide Cast8;
  }

  lemma {:induction false} CastSum(a: nat, b: nat)
    ensures Cast8(a + b) == Cast8(a) + Cast8(b)
  {
    if b > 0 {
      CastSum(a, b - 1);
      assert Cast8(a + b) == Cast8(a + b - 1) + 1;
    }
  }

  lemma CastWraps(n: nat)
    ensures Cast8(n + 256) == Cast8(n)
  {
    CastValue(255);
    Increment(Cast8(255));
    assert Cast8(256) == 0;
    CastSum(n, 256);
  }

  lemma {:induction false} CastRemainder(n: nat)
    ensures Cast8(n) == Cast8(n % 256)
  {
    if n >= 256 {
      CastRemainder(n - 256);
      CastWraps(n - 256);
    }
  }

  /** Two numbers become the same byte exactly when they are congruent modulo 256. */
  lemma CastCongruent(a: nat, b: nat)
    ensures Cast8(a) == Cast8(b) <==> a % 256 == b % 256
  {
    CastRemainder(a);
    CastRemainder(b);
    CastValue(a % 256);
    CastValue(b % 256);
  }

  /** The 16-bit word with the given high and low byte. */
  function Join16(high: byte, low: byte): bv16 {
    (high as bv16 << 8) | low as bv16
  }

  function High(w: bv16): byte {
    (w >> 8) as byte
  }

  function Low(w: bv16): byte {
    (w & 0xFF) as byte
  }

  lemma SplitJoin(high: byte, low: byte)
    ensures High(Join16(high, low)) == high && Low(Join16(high, low)) == low
    ensures Join16(high, low) as int == high as int * 256 + low as int
  {
  }

  lemma JoinSplit(w: bv16)
    ensures Join16(High(w), Low(w)) == w
  {
  }

  /** `static_cast<std::uint16_t>` of a length: the number modulo 65536. */
  function Cast16(n: nat): bv16 {
    Join16(Cast8(n / 256), Cast8(n % 256))
  }

  lemma Cast16Value(n: nat)
    requires n < 65536
    ensures Cast16(n) as int == n
  {
    SplitJoin(Cast8(n / 256), Cast8(n % 256));
    CastValue(n / 256);
    CastValue(n % 256);
  }

  /** The two's complement bit pattern of a signed 16-bit number, and back. */
  function Pattern16(v: int16): bv16 {
    Cast16(if v < 0 then v + 65536 else v)
  }

  function Signed16(w: bv16): int16 {
    JoinSplit(w);
    SplitJoin(High(w), Low(w));
    Negative(High(w));
    if High(w) & 0x80 == 0 then w as int else w as int - 65536
  }

  lemma Negative(high: byte)
    ensures high & 0x80 == 0 <==> high as int < 128
  {
  }

  lemma SignedPattern(v: int16)
    ensures Signed16(Pattern16(v)) == v
  {
    var w := Pattern16(v);
    JoinSplit(w);
    SplitJoin(High(w), Low(w));
    Negative(High(w));
    Cast16Value(if v < 0 then v + 65536 else v);
    hide Cast16, High, Low, Join16;
  }
}
