/** The network layer part of a cEMI frame: a length, a first byte shared by the
    transport (TCPI) and application (APCI) control information, and the payload. */
module Npdu {
  import opened Bytes
  import opened Wrappers
  import opened ByteBuffers
  import opened Controls

  datatype Tcpi = Tcpi(isControl: bool, hasSequence: bool, sequence: byte)

  datatype DataApci = DataApci(apciType: byte, data: seq<byte>, fits6Bits: bool)

  datatype NpduFrame = NpduFrame(tcpi: Tcpi, apci: DataApci)

  const GROUP_VALUE_READ: byte := 0
  const GROUP_VALUE_RESPONSE: byte := 1
  const GROUP_VALUE_WRITE: byte := 2

  /** A payload of at most six bits that travels inside the second byte. */
  predicate Compact(a: DataApci) {
    a.fits6Bits && |a.data| == 1 && a.data[0] & 0xC0 == 0
  }

  /** The control flag would be bit 8 of a byte: it never reaches the wire. */
  function TcpiByte(t: Tcpi): byte {
    Bit(t.hasSequence, 0x80) | ((t.sequence & 0x03) << 4)
  }

  function TcpiOf(b: byte): Tcpi {
    Tcpi(false, b & 0x80 != 0, (b >> 4) & 0x03)
  }

  function LengthByte(a: DataApci): byte {
    if Compact(a) || a.data == [] then 1 else Cast8(|a.data| + 1)
  }

  function FirstByte(n: NpduFrame): byte {
    TcpiByte(n.tcpi) | ((n.apci.apciType & 0x06) >> 2)
  }

  function SecondByte(a: DataApci): byte {
    ((a.apciType & 0x03) << 6) | if Compact(a) then a.data[0] else 0
  }

  function Payload(a: DataApci): seq<byte> {
    if Compact(a) then [] else a.data
  }

  function NpduBytes(n: NpduFrame): seq<byte> {
    [LengthByte(n.apci), FirstByte(n), SecondByte(n.apci)] + Payload(n.apci)
  }

  function ApciType(first: byte, second: byte): byte {
    ((first & 0x03) << 2) | (second >> 6)
  }

  function ParseApci(first: byte, length: byte, bs: seq<byte>): Parsed<DataApci> {
    if bs == [] then Fail(OutOfBounds)
    else if length == 0 then Fail(LengthError)
    else if length == 1 then Ok(DataApci(ApciType(first, bs[0]), [bs[0] & 0x3F], true), bs[1..])
    else
      var size := Numeral(length);
      LongLength(length);
      if |bs| < size then Fail(OutOfBounds)
      else Ok(DataApci(ApciType(first, bs[0]), bs[1..size], false), bs[size..])
  }

  lemma LongLength(length: byte)
    requires length != 0 && length != 1
    ensures 2 <= Numeral(length) <= 255
  {
    if length as int == 1 {
      SameNumber(length, 1);
    }
  }

  function ParseNpdu(bs: seq<byte>): Parsed<NpduFrame> {
    if |bs| < 2 then Fail(OutOfBounds)
    else
      var (a, rest) :- ParseApci(bs[1], bs[0], bs[2..]);
      Ok(NpduFrame(TcpiOf(bs[1]), a), rest)
  }

  /** What is left of an NPDU after it went over the wire. */
  function NpduNormal(n: NpduFrame): NpduFrame {
    NpduFrame(
      Tcpi(false, n.tcpi.hasSequence, n.tcpi.sequence & 0x03),
      DataApci(n.apci.apciType & 0x07,
               if n.apci.data == [] then [0] else n.apci.data,
               n.apci.data == [] || Compact(n.apci)))
  }

  /** Nothing is lost: three type bits, no control flag, two sequence bits, a
      payload that is compact or does not claim to be. */
  predicate NpduCanonical(n: NpduFrame) {
    && !n.tcpi.isControl && n.tcpi.sequence < 4 && n.apci.apciType < 8
    && n.apci.data != [] && (n.apci.fits6Bits ==> Compact(n.apci))
  }

  lemma NpduRoundTrip(n: NpduFrame, rest: seq<byte>)
    requires |n.apci.data| <= 254
    ensures ParseNpdu(NpduBytes(n) + rest) == Ok(NpduNormal(n), rest)
  {
    var bs := NpduBytes(n) + rest;
    var a := n.apci;
    Fields(n);
    hide FirstByte, SecondByte, ApciType, TcpiOf, Cast8, Compact, Numeral;
    assert bs[2..] == [SecondByte(a)] + (Payload(a) + rest);
    if Compact(a) || a.data == [] {
      assert bs[2..][1..] == rest;
    } else {
      var size := 1 + |a.data|;
      CastNumeral(size);
      NotShort(size);
      assert bs[2..][1..size] == a.data && bs[2..][size..] == rest;
    }
  }

  lemma NotShort(n: nat)
    requires 2 <= n < 256
    ensures Cast8(n) != 0 && Cast8(n) != 1
  {
    CastValue(n);
  }

  lemma Fields(n: NpduFrame)
    ensures TcpiOf(FirstByte(n)) == NpduNormal(n).tcpi
    ensures ApciType(FirstByte(n), SecondByte(n.apci)) == n.apci.apciType & 0x07
    ensures Compact(n.apci) ==> [SecondByte(n.apci) & 0x3F] == n.apci.data
    ensures !Compact(n.apci) ==> SecondByte(n.apci) & 0x3F == 0
  {
  }

  lemma NpduNormalForm(n: NpduFrame)
    ensures NpduNormal(n) == n <==> NpduCanonical(n)
    ensures NpduNormal(NpduNormal(n)) == NpduNormal(n)
    ensures NpduBytes(NpduNormal(n)) == NpduBytes(n)
  {
  }

  /** The bits of the first two control bytes that survive a parse and a write. */
  function KeptFirst(b: byte): byte {
    b & 0xB1
  }

  function KeptSecond(b: byte): byte {
    b & 0xC0
  }

  /** The bits of an NPDU that a parse followed by a write clears. */
  function NpduMask(bs: seq<byte>): seq<byte>
    requires |bs| >= 3
  {
    [bs[0], KeptFirst(bs[1]), if bs[0] == 1 then bs[2] else KeptSecond(bs[2])] + bs[3..]
  }

  lemma NpduMasked(bs: seq<byte>)
    requires ParseNpdu(bs).Ok?
    ensures var p := ParseNpdu(bs);
      |p.rest| <= |bs| - 3 && bs[|bs| - |p.rest|..] == p.rest
    ensures var p := ParseNpdu(bs);
      NpduBytes(p.value) == NpduMask(bs[..|bs| - |p.rest|]) && 1 <= |p.value.apci.data| <= 254
  {
    hide NpduBytes, NpduMask, ParseNpdu;
    NpduThere(bs);
    if bs[0] == 1 {
      CompactMasked(bs);
    } else {
      LongMasked(bs);
    }
  }

  /** What the parser accepts, and which error it gives: a zero length is an error of
      its own, anything else that fails is too short. */
  lemma NpduAccepts(bs: seq<byte>)
    ensures ParseNpdu(bs).Ok? <==>
      |bs| >= 3 && (bs[0] == 1 || (bs[0] != 0 && |bs| >= 2 + Numeral(bs[0])))
    ensures ParseNpdu(bs) == Fail(LengthError) <==> |bs| >= 3 && bs[0] == 0
  {
    hide ApciType, TcpiOf, Numeral;
    if |bs| >= 3 && bs[0] != 0 && bs[0] != 1 {
      LongLength(bs[0]);
    }
  }

  lemma NpduThere(bs: seq<byte>)
    requires ParseNpdu(bs).Ok?
    ensures |bs| >= 3 && bs[0] != 0
    ensures bs[0] != 1 ==> 2 <= Numeral(bs[0]) <= 255 && |bs| >= 2 + Numeral(bs[0])
  {
    hide ApciType, TcpiOf, Numeral;
    if bs[0] != 1 && bs[0] != 0 {
      LongLength(bs[0]);
    }
  }

  lemma CompactMasked(bs: seq<byte>)
    requires |bs| >= 3 && bs[0] == 1
    ensures var p := ParseNpdu(bs);
      && p.Ok? && p.rest == bs[3..]
      && |p.value.apci.data| == 1 && NpduBytes(p.value) == NpduMask(bs[..3])
  {
    hide ApciType, TcpiOf;
    var n := NpduFrame(TcpiOf(bs[1]), DataApci(ApciType(bs[1], bs[2]), [bs[2] & 0x3F], true));
    CompactFields(bs[1], bs[2]);
    assert bs[2..][1..] == bs[3..];
    assert ParseNpdu(bs) == Ok(n, bs[3..]);
    hide FirstByte, SecondByte, Compact, ParseNpdu, KeptFirst;
  }

  lemma LongMasked(bs: seq<byte>)
    requires |bs| >= 3 && bs[0] != 0 && bs[0] != 1
    requires 2 <= Numeral(bs[0]) <= 255 && |bs| >= 2 + Numeral(bs[0])
    ensures var p := ParseNpdu(bs);
      var end := 2 + Numeral(bs[0]);
      && p.Ok? && p.rest == bs[end..] && |p.value.apci.data| == end - 3
      && NpduBytes(p.value) == NpduMask(bs[..end])
  {
    hide FirstByte, SecondByte, TcpiOf, ApciType, Cast8, KeptFirst, KeptSecond, Numeral;
    var end := 2 + Numeral(bs[0]);
    var n := NpduFrame(TcpiOf(bs[1]), DataApci(ApciType(bs[1], bs[2]), bs[3..end], false));
    LongFields(bs[1], bs[2], bs[3..end]);
    CastOfNumeral(bs[0]);
    assert bs[2..][1..Numeral(bs[0])] == bs[3..end] && bs[2..][Numeral(bs[0])..] == bs[end..];
    assert ParseNpdu(bs) == Ok(n, bs[end..]);
    assert bs[..end][3..] == n.apci.data;
  }

  lemma CompactFields(first: byte, second: byte)
    ensures var n := NpduFrame(TcpiOf(first), DataApci(ApciType(first, second), [second & 0x3F], true));
      FirstByte(n) == KeptFirst(first) && SecondByte(n.apci) == second && Compact(n.apci)
  {
  }

  lemma LongFields(first: byte, second: byte, data: seq<byte>)
    ensures var n := NpduFrame(TcpiOf(first), DataApci(ApciType(first, second), data, false));
      FirstByte(n) == KeptFirst(first) && SecondByte(n.apci) == KeptSecond(second)
  {
  }

  /** `TCPI::toByte`; a flag set in bit 8 is cut off by the byte. */
  method TcpiToByte(t: Tcpi) returns (asByte: byte)
    ensures asByte == TcpiByte(t)
  {
    asByte := 0;
    if t.isControl {
      asByte := asByte | ((1 as bv16 << 8) & 0xFF) as byte;
    }
    if t.hasSequence {
      asByte := asByte | (1 << 7);
    }
    asByte := asByte | ((t.sequence & 0x03) << 4);
  }

  method WriteApci(firstByte: byte, a: DataApci, writer: ByteBufferWriter)
    modifies writer
    ensures writer.data == old(writer.data)
              + ([LengthByte(a), firstByte | ((a.apciType & 0x06) >> 2), SecondByte(a)] + Payload(a))
  {
    var oneByteData := a.fits6Bits && |a.data| == 1 && a.data[0] & 0xC0 == 0;
    var noData := a.data == [];
    writer.WriteUint8(if oneByteData || noData then 1 else Cast8(|a.data| + 1));
    writer.WriteUint8(firstByte | ((a.apciType & 0x06) >> 2));
    var secondByte := (a.apciType & 0x03) << 6;
    if oneByteData {
      secondByte := secondByte | (a.data[0] & 0xFF);
      writer.WriteUint8(secondByte);
    } else {
      writer.WriteUint8(secondByte);
      writer.WriteVector(a.data);
    }
  }

  method WriteNpdu(n: NpduFrame, writer: ByteBufferWriter)
    modifies writer
    ensures writer.data == old(writer.data) + NpduBytes(n)
  {
    var firstByte := TcpiToByte(n.tcpi);
    WriteApci(firstByte, n.apci, writer);
  }

  method ReadApci(firstByte: byte, length: byte, reader: ByteBufferReader)
    returns (r: Result<DataApci, ParseError>)
    requires reader.Valid() && ParseApci(firstByte, length, reader.Rest()) != Fail(OutOfBounds)
    modifies reader
    ensures reader.Valid()
    ensures match ParseApci(firstByte, length, old(reader.Rest()))
            case Ok(a, rest) => r == Success(a) && reader.Rest() == rest
            case Fail(error) => r == Failure(error)
  {
    hide Numeral;
    var secondByte := reader.ReadUint8();
    var apciType := (firstByte & 0x03) << 2;
    apciType := apciType | ((secondByte & 0xC0) >> 6);
    TypeBits(firstByte, secondByte);
    hide ApciType;
    if length == 0 {
      return Failure(LengthError);
    }
    if length == 1 {
      r := Success(DataApci(apciType, [secondByte & 0x3F], true));
      assert old(reader.Rest())[1..] == reader.Rest();
    } else {
      LongLength(length);
      var data := reader.ReadByteSpan(Numeral(length) - 1);
      r := Success(DataApci(apciType, data, false));
      ghost var bs, size := old(reader.Rest()), Numeral(length);
      assert bs == [secondByte] + (data + reader.Rest());
      assert bs[1..size] == data && bs[size..] == reader.Rest();
    }
  }

  lemma TypeBits(first: byte, second: byte)
    ensures ((first & 0x03) << 2) | ((second & 0xC0) >> 6) == ApciType(first, second)
  {
  }

  method ReadNpdu(reader: ByteBufferReader) returns (r: Result<NpduFrame, ParseError>)
    requires reader.Valid() && ParseNpdu(reader.Rest()) != Fail(OutOfBounds)
    modifies reader
    ensures reader.Valid()
    ensures match ParseNpdu(old(reader.Rest()))
            case Ok(n, rest) => r == Success(n) && reader.Rest() == rest
            case Fail(error) => r == Failure(error)
  {
    hide ParseApci, TcpiOf;
    var length := reader.ReadUint8();
    var firstByte := reader.ReadUint8();
    assert old(reader.Rest()) == [length, firstByte] + reader.Rest();
    Halves(firstByte, length, reader.Rest());
    var tcpi := Tcpi(false, (firstByte & 0xF0) & 0x80 != 0, ((firstByte & 0xF0) >> 4) & 0x03);
    var apci := ReadApci(firstByte & 0x0F, length, reader);
    match apci {
      case Success(a) => r := Success(NpduFrame(tcpi, a));
      case Failure(error) => r := Failure(error);
    }
  }

  /** The transport part lives in the high nibble, the application part in the low one. */
  lemma Halves(first: byte, length: byte, bs: seq<byte>)
    ensures Tcpi(false, (first & 0xF0) & 0x80 != 0, ((first & 0xF0) >> 4) & 0x03) == TcpiOf(first)
    ensures ParseApci(first & 0x0F, length, bs) == ParseApci(first, length, bs)
  {
    if bs != [] {
      LowNibble(first, bs[0]);
    }
    hide ApciType, Numeral;
  }

  lemma LowNibble(first: byte, second: byte)
    ensures ApciType(first & 0x0F, second) == ApciType(first, second)
  {
  }
}
