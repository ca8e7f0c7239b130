/** The byte reader and writer under every frame codec, on a little-endian host. */
module ByteBuffers {
  import opened Bytes
  import opened Wrappers

  /** A typed value that a frame is built from. */
  datatype Value =
    | Uint8(u8: byte)
    | Uint16(u16: bv16)
    | Int16(i16: int16)
    | Uint32(u32: bv32)
    | Flag(flag: bool)
    | Run(bytes: seq<byte>)

  /** The type of a value; the length of a byte run is known to the reader. */
  datatype Kind = KUint8 | KUint16 | KInt16 | KUint32 | KFlag | KRun(length: nat)

  function KindOf(v: Value): Kind {
    match v
    case Uint8(_) => KUint8
    case Uint16(_) => KUint16
    case Int16(_) => KInt16
    case Uint32(_) => KUint32
    case Flag(_) => KFlag
    case Run(bytes) => KRun(|bytes|)
  }

  /** Big-endian layout: the most significant byte comes first. */
  function BigEndian16(v: bv16): seq<byte> {
    [High(v), Low(v)]
  }

  /** The bytes of a 32-bit word, counted from the least significant. */
  function Octet0(v: bv32): byte {
    (v & 0xFF) as byte
  }

  function Octet1(v: bv32): byte {
    ((v >> 8) & 0xFF) as byte
  }

  function Octet2(v: bv32): byte {
    ((v >> 16) & 0xFF) as byte
  }

  function Octet3(v: bv32): byte {
    ((v >> 24) & 0xFF) as byte
  }

  function BigEndian32(v: bv32): seq<byte> {
    [Octet3(v), Octet2(v), Octet1(v), Octet0(v)]
  }

  /** The bytes of a value in a frame. */
  function Layout(v: Value): seq<byte> {
    match v
    case Uint8(u8) => [u8]
    case Uint16(u16) => BigEndian16(u16)
    case Int16(i16) => BigEndian16(Pattern16(i16))
    case Uint32(u32) => BigEndian32(u32)
    case Flag(flag) => [if flag then 1 else 0]
    case Run(bytes) => bytes
  }

  function LayoutAll(vs: seq<Value>): seq<byte> {
    if vs == [] then [] else Layout(vs[0]) + LayoutAll(vs[1..])
  }

  function Size(k: Kind): nat {
    match k
    case KUint8 => 1
    case KUint16 => 2
    case KInt16 => 2
    case KUint32 => 4
    case KFlag => 1
    case KRun(n) => n
  }

  function Join32(b3: byte, b2: byte, b1: byte, b0: byte): bv32 {
    (b3 as bv32 << 24) | (b2 as bv32 << 16) | (b1 as bv32 << 8) | b0 as bv32
  }

  /** What a read of kind `k` makes of the bytes under the cursor. */
  function Interpret(k: Kind, bs: seq<byte>): Value
    requires |bs| == Size(k)
  {
    match k
    case KUint8 => Uint8(bs[0])
    case KUint16 => Uint16(Join16(bs[0], bs[1]))
    case KInt16 => Int16(Signed16(Join16(bs[0], bs[1])))
    case KUint32 => Uint32(Join32(bs[0], bs[1], bs[2], bs[3]))
    case KFlag => Flag(bs[0] != 0)
    case KRun(_) => Run(bs)
  }

  function ReadValue(k: Kind, bs: seq<byte>): Parsed<Value> {
    if |bs| < Size(k) then Fail(OutOfBounds)
    else Ok(Interpret(k, bs[..Size(k)]), bs[Size(k)..])
  }

  function ReadValues(ks: seq<Kind>, bs: seq<byte>): Parsed<seq<Value>> {
    if ks == [] then Ok([], bs)
    else
      var (v, rest) :- ReadValue(ks[0], bs);
      var (vs, end) :- ReadValues(ks[1..], rest);
      Ok([v] + vs, end)
  }

  function Kinds(vs: seq<Value>): (ks: seq<Kind>)
    ensures |ks| == |vs|
  {
    if vs == [] then [] else [KindOf(vs[0])] + Kinds(vs[1..])
  }

  lemma Word32(v: bv32)
    ensures Join32(Octet3(v), Octet2(v), Octet1(v), Octet0(v)) == v
  {
  }

  /** The bytes of a value read as its own type are that value. */
  lemma InterpretLayout(v: Value)
    ensures |Layout(v)| == Size(KindOf(v))
    ensures Interpret(KindOf(v), Layout(v)) == v
  {
    match v {
      case Uint16(u16) => JoinSplit(u16);
      case Int16(i16) =>
        SignedPattern(i16);
        JoinSplit(Pattern16(i16));
        hide Pattern16, Signed16, Join16, High, Low;
      case Uint32(u32) =>
        Word32(u32);
        hide Join32, Octet0, Octet1, Octet2, Octet3;
      case _ =>
    }
  }

  /** The layout in numbers: the first byte weighs most, a negative number is written
      as itself plus 65536, and any byte but zero is a true flag. */
  lemma LayoutOfNumbers(w: bv16, v: int16, b: byte)
    ensures Numeral(Layout(Uint16(w))[0]) * 256 + Numeral(Layout(Uint16(w))[1]) == w as int
    ensures Numeral(Layout(Int16(v))[0]) * 256 + Numeral(Layout(Int16(v))[1]) == if v < 0 then v + 65536 else v
    ensures Interpret(KFlag, [b]) == Flag(b != 0)
  {
    JoinSplit(w);
    SplitJoin(High(w), Low(w));
    var p := Pattern16(v);
    JoinSplit(p);
    SplitJoin(High(p), Low(p));
    Cast16Value(if v < 0 then v + 65536 else v);
    hide High, Low, Join16, Cast16;
  }

  /** The same for 32 bits, two 16-bit halves at a time. */
  lemma LayoutOfWord(w: bv32)
    ensures var bs := Layout(Uint32(w));
      Join16(bs[0], bs[1]) == (w >> 16) as bv16 && Join16(bs[2], bs[3]) == (w & 0xFFFF) as bv16
  {
  }

  /** One value read back with its own type: the value returns and the cursor
      stands right after it. */
  lemma ReadBackOne(v: Value, suffix: seq<byte>)
    ensures ReadValue(KindOf(v), Layout(v) + suffix) == Ok(v, suffix)
  {
    InterpretLayout(v);
    hide Layout, Interpret;
    var bs := Layout(v) + suffix;
    assert bs[..|Layout(v)|] == Layout(v) && bs[|Layout(v)|..] == suffix;
  }

  /** Writing any list of values and reading with the same list of types gives
      the list back and leaves exactly what followed it. */
  lemma {:induction false} ReadBack(vs: seq<Value>, suffix: seq<byte>)
    ensures ReadValues(Kinds(vs), LayoutAll(vs) + suffix) == Ok(vs, suffix)
  {
    hide Layout, ReadValue;
    if vs == [] {
      assert LayoutAll(vs) + suffix == suffix;
    } else {
      var tail := LayoutAll(vs[1..]) + suffix;
      assert LayoutAll(vs) + suffix == Layout(vs[0]) + tail;
      ReadBackOne(vs[0], tail);
      ReadBack(vs[1..], suffix);
      assert Kinds(vs)[1..] == Kinds(vs[1..]);
      assert [vs[0]] + vs[1..] == vs;
    }
  }

  /** `std::byteswap` on 16 and 32 bits. */
  function ByteSwap16(v: bv16): bv16 {
    (v << 8) | (v >> 8)
  }

  function ByteSwap32(v: bv32): bv32 {
    (v << 24) | ((v & 0xFF00) << 8) | ((v >> 8) & 0xFF00) | (v >> 24)
  }

  lemma SwappedOctets(v: bv32)
    ensures var w := ByteSwap32(v);
      && Octet0(w) == Octet3(v) && Octet1(w) == Octet2(v)
      && Octet2(w) == Octet1(v) && Octet3(w) == Octet0(v)
  {
  }

  lemma SwappedWord(b3: byte, b2: byte, b1: byte, b0: byte)
    ensures ByteSwap32(Join32(b0, b1, b2, b3)) == Join32(b3, b2, b1, b0)
  {
  }

  /** `ByteBufferReader`: a cursor over bytes it does not own.  A read past the
      end is undefined behaviour in the library, hence the preconditions. */
  class ByteBufferReader {
    const data: seq<byte>
    var index: nat

    constructor (data: seq<byte>)
      ensures Valid() && this.data == data && Rest() == data
    {
      this.data := data;
      index := 0;
    }

    ghost predicate Valid()
      reads this
    {
      index <= |data|
    }

    /** The bytes from the cursor on. */
    ghost function Rest(): seq<byte>
      requires Valid()
      reads this
    {
      data[index..]
    }

    method ReadUint8() returns (b: byte)
      requires Valid() && |Rest()| >= 1
      modifies this
      ensures Valid() && index == old(index) + 1
      ensures old(Rest()) == [b] + Rest()
    {
      b := data[index];
      index := index + 1;
    }

    method ReadBoolFromByte() returns (b: bool)
      requires Valid() && |Rest()| >= 1
      modifies this
      ensures Valid()
      ensures ReadValue(KFlag, old(Rest())) == Ok(Flag(b), Rest())
      ensures b <==> old(Rest())[0] != 0
    {
      b := data[index] != 0;
      index := index + 1;
    }

    method ReadUint16() returns (v: bv16)
      requires Valid() && |Rest()| >= 2
      modifies this
      ensures Valid() && index == old(index) + 2
      ensures ReadValue(KUint16, old(Rest())) == Ok(Uint16(v), Rest())
    {
      v := data[index] as bv16 << 8;
      index := index + 1;
      v := v | data[index] as bv16;
      index := index + 1;
    }

    method ReadInt16() returns (v: int16)
      requires Valid() && |Rest()| >= 2
      modifies this
      ensures Valid() && index == old(index) + 2
      ensures ReadValue(KInt16, old(Rest())) == Ok(Int16(v), Rest())
    {
      hide Signed16;
      var bits := data[index] as bv16 << 8;
      index := index + 1;
      bits := bits | data[index] as bv16;
      index := index + 1;
      v := Signed16(bits);
    }

    method ReadUint32() returns (v: bv32)
      requires Valid() && |Rest()| >= 4
      modifies this
      ensures Valid() && index == old(index) + 4
      ensures ReadValue(KUint32, old(Rest())) == Ok(Uint32(v), Rest())
    {
      hide Join32, ByteSwap32;
      // memcpy into a native little-endian word, then swap its bytes
      var native := Join32(data[index + 3], data[index + 2], data[index + 1], data[index]);
      SwappedWord(data[index], data[index + 1], data[index + 2], data[index + 3]);
      index := index + 4;
      v := ByteSwap32(native);
    }

    method ReadByteSpan(numberOfBytes: nat) returns (span: seq<byte>)
      requires Valid() && |Rest()| >= numberOfBytes
      modifies this
      ensures Valid() && index == old(index) + numberOfBytes
      ensures |span| == numberOfBytes && old(Rest()) == span + Rest()
    {
      span := data[index..index + numberOfBytes];
      index := index + numberOfBytes;
    }

    method Skip(numberOfBytes: nat)
      requires Valid() && |Rest()| >= numberOfBytes
      modifies this
      ensures Valid() && index == old(index) + numberOfBytes
      ensures Rest() == old(Rest())[numberOfBytes..]
    {
      index := index + numberOfBytes;
    }
  }

  /** `ByteBufferWriter`: appends to a byte vector. */
  class ByteBufferWriter {
    var data: seq<byte>

    constructor ()
      ensures data == []
    {
      data := [];
    }

    method WriteUint8(value: byte)
      modifies this
      ensures data == old(data) + [value]
    {
      data := data + [value];
    }

    method WriteBoolAsByte(value: bool)
      modifies this
      ensures data == old(data) + Layout(Flag(value))
    {
      WriteUint8(if value then 1 else 0);
    }

    method WriteUint16(value: bv16)
      modifies this
      ensures data == old(data) + Layout(Uint16(value))
    {
      var swapped := ByteSwap16(value);
      data := data + [(swapped & 0xFF) as byte];
      data := data + [((swapped >> 8) & 0xFF) as byte];
    }

    method WriteInt16(value: int16)
      modifies this
      ensures data == old(data) + Layout(Int16(value))
    {
      hide Pattern16;
      var swapped := ByteSwap16(Pattern16(value));
      data := data + [(swapped & 0xFF) as byte];
      data := data + [((swapped >> 8) & 0xFF) as byte];
    }

    method WriteUint32(value: bv32)
      modifies this
      ensures data == old(data) + Layout(Uint32(value))
    {
      hide ByteSwap32, Octet0, Octet1, Octet2, Octet3;
      var swapped := ByteSwap32(value);
      SwappedOctets(value);
      data := data + [Octet0(swapped)];
      data := data + [Octet1(swapped)];
      data := data + [Octet2(swapped)];
      data := data + [Octet3(swapped)];
    }

    method WriteVector(bytes: seq<byte>)
      modifies this
      ensures data == old(data) + bytes
    {
      data := data + bytes;
    }
  }
}
