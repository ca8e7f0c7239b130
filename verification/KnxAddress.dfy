/** Individual addresses (area.line.device) and group addresses
    (main/middle/sub), their two-byte forms and their order. */
module KnxAddresses {
  import opened Bytes
  import opened Wrappers
  import opened ByteBuffers

  /** The three fields keep whatever bytes the caller gave. */
  datatype KnxAddress = KnxAddress(high: byte, middle: byte, low: byte)

  datatype Destination = Individual(address: KnxAddress) | Group(address: KnxAddress)

  predicate IndividualInRange(a: KnxAddress) {
    a.high < 16 && a.middle < 16
  }

  predicate GroupInRange(a: KnxAddress) {
    a.high < 32 && a.middle < 8
  }

  /** What is left of an address after it went over the wire: an individual
      address keeps the low nibbles, a group address lets the bits of an
      oversized middle part run into the main part. */
  function IndividualNormal(a: KnxAddress): KnxAddress {
    KnxAddress(a.high & 0x0F, a.middle & 0x0F, a.low)
  }

  function GroupNormal(a: KnxAddress): KnxAddress {
    KnxAddress((a.high & 0x1F) | ((a.middle >> 3) & 0x03), a.middle & 0x07, a.low)
  }

  function IndividualBytes(a: KnxAddress): (bs: seq<byte>)
    ensures |bs| == 2
  {
    [(a.high << 4) | (a.middle & 0x0F), a.low]
  }

  function GroupBytes(a: KnxAddress): (bs: seq<byte>)
    ensures |bs| == 2
  {
    [(a.high << 3) | (a.middle & 0x1F), a.low]
  }

  function ParseIndividual(bs: seq<byte>): Parsed<KnxAddress> {
    if |bs| < 2 then Fail(OutOfBounds)
    else Ok(KnxAddress(bs[0] >> 4, bs[0] & 0x0F, bs[1]), bs[2..])
  }

  function ParseGroup(bs: seq<byte>): Parsed<KnxAddress> {
    if |bs| < 2 then Fail(OutOfBounds)
    else Ok(KnxAddress(bs[0] >> 3, bs[0] & 0x07, bs[1]), bs[2..])
  }

  /** `operator>` and `operator<` of the library. */
  predicate Greater(a: KnxAddress, b: KnxAddress) {
    if Above(a.high, b.high) then true
    else if a.high == b.high then
      if Above(a.middle, b.middle) then true
      else if a.middle == b.middle then Above(a.low, b.low)
      else false
    else false
  }

  predicate Less(a: KnxAddress, b: KnxAddress) {
    if a == b then false else Greater(b, a)
  }

  /** Both address kinds survive the wire up to their normal form. */
  lemma AddressRoundTrip(a: KnxAddress, rest: seq<byte>)
    ensures ParseIndividual(IndividualBytes(a) + rest) == Ok(IndividualNormal(a), rest)
    ensures ParseGroup(GroupBytes(a) + rest) == Ok(GroupNormal(a), rest)
  {
    assert (IndividualBytes(a) + rest)[2..] == rest;
    assert (GroupBytes(a) + rest)[2..] == rest;
  }

  /** An address survives unchanged exactly when its fields fit their bit fields. */
  lemma NormalAddresses(a: KnxAddress)
    ensures IndividualNormal(a) == a <==> IndividualInRange(a)
    ensures GroupNormal(a) == a <==> GroupInRange(a)
    ensures IndividualInRange(IndividualNormal(a)) && GroupInRange(GroupNormal(a))
    ensures GroupBytes(GroupNormal(a)) == GroupBytes(a)
    ensures IndividualBytes(IndividualNormal(a)) == IndividualBytes(a)
  {
  }

  /** Every two bytes are the form of the address parsed from them. */
  lemma AddressBytesBack(bs: seq<byte>)
    requires |bs| >= 2
    ensures IndividualBytes(ParseIndividual(bs).value) == bs[..2]
    ensures GroupBytes(ParseGroup(bs).value) == bs[..2]
    ensures IndividualInRange(ParseIndividual(bs).value)
    ensures GroupInRange(ParseGroup(bs).value)
  {
    assert bs[..2] == [bs[0], bs[1]];
  }

  /** The numeric order of two big-endian 16-bit numbers. */
  predicate NumericallyBefore(x: seq<byte>, y: seq<byte>)
    requires |x| == |y| == 2
  {
    Numeral(x[0]) * 256 + Numeral(x[1]) < Numeral(y[0]) * 256 + Numeral(y[1])
  }

  /** On addresses that fit, `operator<` is the numeric order of the written bytes. */
  lemma LessIsNumericOrder(a: KnxAddress, b: KnxAddress)
    ensures IndividualInRange(a) && IndividualInRange(b) ==>
              (Less(a, b) <==> NumericallyBefore(IndividualBytes(a), IndividualBytes(b)))
    ensures GroupInRange(a) && GroupInRange(b) ==>
              (Less(a, b) <==> NumericallyBefore(GroupBytes(a), GroupBytes(b)))
  {
    hide IndividualBytes, GroupBytes, IndividualInRange, GroupInRange, Above, Numeral, Less;
    hide Rank, NumericallyBefore;
    Compare(a, b);
    if IndividualInRange(a) && IndividualInRange(b) {
      FirstIndividualByte(a);
      FirstIndividualByte(b);
      FieldOrder(16, a, IndividualBytes(a), b, IndividualBytes(b));
    }
    if GroupInRange(a) && GroupInRange(b) {
      FirstGroupByte(a);
      FirstGroupByte(b);
      FieldOrder(8, a, GroupBytes(a), b, GroupBytes(b));
    }
  }

  /** A middle field below `width` packed under the high field. */
  predicate Packed(width: nat, a: KnxAddress, x: seq<byte>)
    requires |x| == 2
  {
    && Numeral(x[0]) == Numeral(a.high) * width + Numeral(a.middle)
    && Numeral(a.middle) < width && x[1] == a.low
  }

  lemma FieldOrder(width: nat, a: KnxAddress, x: seq<byte>, b: KnxAddress, y: seq<byte>)
    requires width == 16 || width == 8
    requires |x| == |y| == 2 && Packed(width, a, x) && Packed(width, b, y)
    ensures Rank(a) < Rank(b) <==> NumericallyBefore(x, y)
  {
    hide Numeral;
    ByteBound(a.low);
    ByteBound(b.low);
    Digits(width, Numeral(a.high), Numeral(a.middle), Numeral(a.low),
           Numeral(b.high), Numeral(b.middle), Numeral(b.low));
    Digits(256, Numeral(a.high), Numeral(a.middle), Numeral(a.low), Numeral(b.high), Numeral(b.middle), Numeral(b.low));
  }

  lemma Digits(width: nat, h: nat, m: nat, l: nat, h': nat, m': nat, l': nat)
    requires width in {8, 16, 256}
    requires m < width && m' < width && l < 256 && l' < 256
    ensures (h * width + m) * 256 + l < (h' * width + m') * 256 + l'
       <==> h < h' || (h == h' && (m < m' || (m == m' && l < l')))
  {
  }

  lemma FirstIndividualByte(a: KnxAddress)
    requires IndividualInRange(a)
    ensures Packed(16, a, IndividualBytes(a))
  {
  }

  lemma FirstGroupByte(a: KnxAddress)
    requires GroupInRange(a)
    ensures Packed(8, a, GroupBytes(a))
  {
  }

  /** The comparisons of the fields, as comparisons of numbers. */
  lemma Compare(a: KnxAddress, b: KnxAddress)
    ensures Less(a, b) <==> Rank(a) < Rank(b)
    ensures Greater(a, b) <==> Rank(a) > Rank(b)
    ensures a == b <==> Rank(a) == Rank(b)
    ensures Numeral(a.low) < 256 && Numeral(b.low) < 256
  {
    hide Above, Numeral;
    AboveIsNumeric(a.high, b.high);
    AboveIsNumeric(a.middle, b.middle);
    AboveIsNumeric(a.low, b.low);
    AboveIsNumeric(b.high, a.high);
    AboveIsNumeric(b.middle, a.middle);
    AboveIsNumeric(b.low, a.low);
    ByteBound(a.middle);
    ByteBound(b.middle);
    ByteBound(a.low);
    ByteBound(b.low);
  }

  /** The three fields read as one number. */
  function Rank(a: KnxAddress): nat {
    Numeral(a.high) * 65536 + Numeral(a.middle) * 256 + Numeral(a.low)
  }

  /** `operator<` is a strict total order on all addresses. */
  lemma LessIsStrictTotalOrder(a: KnxAddress, b: KnxAddress, c: KnxAddress)
    ensures !Less(a, a)
    ensures Less(a, b) ==> !Less(b, a)
    ensures Less(a, b) && Less(b, c) ==> Less(a, c)
    ensures Less(a, b) || a == b || Less(b, a)
    ensures Less(a, b) <==> Greater(b, a)
  {
    hide Less, Greater, Rank;
    Compare(a, a);
    Compare(a, b);
    Compare(b, a);
    Compare(b, c);
    Compare(a, c);
  }

  method ReadIndividual(reader: ByteBufferReader) returns (a: KnxAddress)
    requires reader.Valid() && ParseIndividual(reader.Rest()).Ok?
    modifies reader
    ensures reader.Valid()
    ensures ParseIndividual(old(reader.Rest())) == Ok(a, reader.Rest())
  {
    var address := reader.ReadByteSpan(2);
    a := KnxAddress((address[0] >> 4) & 0x0F, address[0] & 0x0F, address[1]);
  }

  method ReadGroup(reader: ByteBufferReader) returns (a: KnxAddress)
    requires reader.Valid() && ParseGroup(reader.Rest()).Ok?
    modifies reader
    ensures reader.Valid()
    ensures ParseGroup(old(reader.Rest())) == Ok(a, reader.Rest())
  {
    var address := reader.ReadByteSpan(2);
    a := KnxAddress((address[0] >> 3) & 0x1F, address[0] & 0x07, address[1]);
  }

  method WriteIndividual(a: KnxAddress, writer: ByteBufferWriter)
    modifies writer
    ensures writer.data == old(writer.data) + IndividualBytes(a)
  {
    writer.WriteUint8(((a.high << 4) & 0xF0) | (a.middle & 0x0F));
    writer.WriteUint8(a.low);
  }

  method WriteGroup(a: KnxAddress, writer: ByteBufferWriter)
    modifies writer
    ensures writer.data == old(writer.data) + GroupBytes(a)
  {
    writer.WriteUint8(((a.high & 0x1F) << 3) | (a.middle & 0x1F));
    writer.WriteUint8(a.low);
  }
}
