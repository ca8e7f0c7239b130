/** The L_Data cEMI frame (section 4.1.5.3 of KNX Standard 03_06_03). */
module CemiFrames {
  import opened Bytes
  import opened Wrappers
  import opened ByteBuffers
  import opened KnxAddresses
  import opened Controls
  import opened Npdu
  import AI = AdditionalInformation

  const L_DATA_IND: byte := 0x29
  const L_DATA_REQ: byte := 0x11
  const L_DATA_CON: byte := 0x2E

  datatype Cemi = Cemi(
    messageCode: byte,
    info: seq<AI.Element>,
    control: Control,
    source: KnxAddress,
    destination: Destination,
    npdu: NpduFrame)

  function DestinationBytes(d: Destination): seq<byte> {
    match d
    case Individual(a) => IndividualBytes(a)
    case Group(a) => GroupBytes(a)
  }

  /** The frame after the additional information. */
  function Body(c: Cemi): seq<byte> {
    ControlBytes(c.control) + (IndividualBytes(c.source) + (DestinationBytes(c.destination) + NpduBytes(c.npdu)))
  }

  function CemiBytes(c: Cemi): seq<byte> {
    [c.messageCode] + (AI.InfoBytes(c.info) + Body(c))
  }

  function ParseDestination(isGroup: bool, bs: seq<byte>): Parsed<Destination> {
    if isGroup then
      var (a, rest) :- ParseGroup(bs);
      Ok(Group(a), rest)
    else
      var (a, rest) :- ParseIndividual(bs);
      Ok(Individual(a), rest)
  }

  function ParseBody(messageCode: byte, info: seq<AI.Element>, bs: seq<byte>): Parsed<Cemi> {
    var (control, afterControl) :- ParseControl(bs);
    var (source, afterSource) :- ParseIndividual(afterControl);
    var (destination, afterDestination) :- ParseDestination(control.destinationIsGroup, afterSource);
    var (npdu, rest) :- ParseNpdu(afterDestination);
    Ok(Cemi(messageCode, info, control, source, destination, npdu), rest)
  }

  function ParseCemi(bs: seq<byte>): Parsed<Cemi> {
    if bs == [] then Fail(OutOfBounds)
    else
      var (info, rest) :- AI.ParseInfo(bs[1..]);
      ParseBody(bs[0], info, rest)
  }

  function DestinationNormal(d: Destination): Destination {
    match d
    case Individual(a) => Individual(IndividualNormal(a))
    case Group(a) => Group(GroupNormal(a))
  }

  /** What is left of a frame after it went over the wire. */
  function CemiNormal(c: Cemi): Cemi {
    Cemi(c.messageCode, c.info, ControlNormal(c.control), IndividualNormal(c.source),
         DestinationNormal(c.destination), NpduNormal(c.npdu))
  }

  /** The frames whose own bytes say where each part ends and what the
      destination is. */
  ghost predicate Writable(c: Cemi) {
    && AI.Sized(c.info) && AI.SelfDelimiting(c.info)
    && c.destination.Group? == ControlNormal(c.control).destinationIsGroup
    && |c.npdu.apci.data| <= 254
  }

  predicate DestinationInRange(d: Destination) {
    match d
    case Individual(a) => IndividualInRange(a)
    case Group(a) => GroupInRange(a)
  }

  /** The frames that lose nothing on the wire. */
  predicate Canonical(c: Cemi) {
    && c.control.hopCount < 8 && IndividualInRange(c.source) && DestinationInRange(c.destination)
    && NpduCanonical(c.npdu)
  }

  lemma DestinationRoundTrip(d: Destination, rest: seq<byte>)
    ensures ParseDestination(d.Group?, DestinationBytes(d) + rest) == Ok(DestinationNormal(d), rest)
  {
    AddressRoundTrip(d.address, rest);
    hide IndividualBytes, GroupBytes, IndividualNormal, GroupNormal, ParseIndividual, ParseGroup;
  }

  lemma BodyRoundTrip(c: Cemi, rest: seq<byte>)
    requires c.destination.Group? == ControlNormal(c.control).destinationIsGroup
    requires |c.npdu.apci.data| <= 254
    ensures ParseBody(c.messageCode, c.info, Body(c) + rest) == Ok(CemiNormal(c), rest)
  {
    hide ControlBytes, IndividualBytes, DestinationBytes, NpduBytes, ParseControl, ParseIndividual,
      ParseDestination, ParseNpdu, ControlNormal, IndividualNormal, DestinationNormal, NpduNormal;
    var npdu := NpduBytes(c.npdu) + rest;
    var destination := DestinationBytes(c.destination) + npdu;
    var source := IndividualBytes(c.source) + destination;
    BodySplit(ControlBytes(c.control), IndividualBytes(c.source), DestinationBytes(c.destination),
              NpduBytes(c.npdu), rest);
    ControlRoundTrip(c.control, source);
    AddressRoundTrip(c.source, destination);
    DestinationRoundTrip(c.destination, npdu);
    NpduRoundTrip(c.npdu, rest);
  }

  lemma BodySplit(a: seq<byte>, b: seq<byte>, c: seq<byte>, d: seq<byte>, rest: seq<byte>)
    ensures a + (b + (c + d)) + rest == a + (b + (c + (d + rest)))
  {
    assert c + d + rest == c + (d + rest);
    assert b + (c + d) + rest == b + (c + d + rest);
  }

  lemma CemiSplit(c: Cemi, rest: seq<byte>)
    ensures var bs := CemiBytes(c) + rest;
      bs != [] && bs[0] == c.messageCode && bs[1..] == AI.InfoBytes(c.info) + (Body(c) + rest)
  {
    hide Body;
    var bs := CemiBytes(c) + rest;
    assert bs == [c.messageCode] + (AI.InfoBytes(c.info) + (Body(c) + rest)) by {
      Regroup3(c.messageCode, AI.InfoBytes(c.info), Body(c), rest);
    }
  }

  lemma Regroup3(m: byte, a: seq<byte>, b: seq<byte>, c: seq<byte>)
    ensures [m] + (a + b) + c == [m] + (a + (b + c))
  {
  }

  /** The round trip, exactly: parsing a written frame gives its normal form and
      leaves the bytes behind it if and only if the frame is writable. */
  lemma CemiRoundTrip(c: Cemi, rest: seq<byte>)
    ensures ParseCemi(CemiBytes(c) + rest) == Ok(CemiNormal(c), rest) <==> Writable(c)
  {
    if Writable(c) {
      WritableReturns(c, rest);
    }
    if ParseCemi(CemiBytes(c) + rest) == Ok(CemiNormal(c), rest) {
      OnlyWritableReturns(c, rest);
    }
  }

  lemma WritableReturns(c: Cemi, rest: seq<byte>)
    requires Writable(c)
    ensures ParseCemi(CemiBytes(c) + rest) == Ok(CemiNormal(c), rest)
  {
    hide Body, CemiBytes, CemiNormal, ParseBody, AI.InfoBytes, AI.ParseInfo;
    CemiSplit(c, rest);
    AI.InfoRoundTrip(c.info, Body(c) + rest);
    BodyRoundTrip(c, rest);
  }

  lemma OnlyWritableReturns(c: Cemi, rest: seq<byte>)
    requires ParseCemi(CemiBytes(c) + rest) == Ok(CemiNormal(c), rest)
    ensures Writable(c)
  {
    hide CemiBytes, ParseBody, AI.InfoBytes, AI.ParseInfo, ControlNormal;
    CemiSplit(c, rest);
    var tail := Body(c) + rest;
    var p := AI.ParseInfo(AI.InfoBytes(c.info) + tail);
    ParsedBody(c.messageCode, p.value, p.rest);
    AI.ParsedInfo(AI.InfoBytes(c.info) + tail);
  }

  /** What every parsed frame looks like. */
  lemma ParsedBody(messageCode: byte, info: seq<AI.Element>, bs: seq<byte>)
    requires ParseBody(messageCode, info, bs).Ok?
    ensures var c := ParseBody(messageCode, info, bs).value;
      && c.messageCode == messageCode && c.info == info
      && c.destination.Group? == c.control.destinationIsGroup
      && 1 <= |c.npdu.apci.data| <= 254
  {
    hide ControlOf, ParseIndividual, ParseGroup, ParseNpdu;
    var control := ParseControl(bs);
    var source := ParseIndividual(control.rest);
    var destination := ParseDestination(control.value.destinationIsGroup, source.rest);
    NpduMasked(destination.rest);
  }

  /** The normal form is reached in one step, has the same bytes, and is the frame
      itself exactly when every field fits its place on the wire. */
  lemma CemiNormalForm(c: Cemi)
    ensures CemiNormal(CemiNormal(c)) == CemiNormal(c)
    ensures CemiBytes(CemiNormal(c)) == CemiBytes(c)
    ensures CemiNormal(c) == c <==> Canonical(c)
    ensures Writable(c) ==> Writable(CemiNormal(c))
  {
    ControlRoundTrip(c.control, []);
    NormalAddresses(c.source);
    NormalAddresses(IndividualNormal(c.source));
    NormalAddresses(c.destination.address);
    NormalAddresses(IndividualNormal(c.destination.address));
    NormalAddresses(GroupNormal(c.destination.address));
    NpduNormalForm(c.npdu);
    NormalControlTwice(c.control);
    hide ControlNormal, IndividualNormal, GroupNormal, NpduNormal, ControlBytes, IndividualBytes,
      GroupBytes, NpduBytes, IndividualInRange, GroupInRange, AI.Sized, AI.SelfDelimiting, AI.InfoBytes;
    NormalDataLength(c.npdu);
  }

  lemma NormalDataLength(n: NpduFrame)
    ensures |n.apci.data| <= 254 ==> |NpduNormal(n).apci.data| <= 254
  {
  }

  lemma NormalControlTwice(c: Control)
    ensures ControlNormal(ControlNormal(c)) == ControlNormal(c)
  {
  }

  /** A frame in the range the standard allows loses nothing but the form of its
      payload: an empty one becomes one zero byte, and the six-bit mark stays only
      on a payload that is compact. */
  lemma InRangeNormal(c: Cemi)
    requires c.control.hopCount < 8 && IndividualInRange(c.source) && DestinationInRange(c.destination)
    requires !c.npdu.tcpi.isControl && c.npdu.tcpi.sequence < 4 && c.npdu.apci.apciType < 8
    ensures var a := c.npdu.apci;
      CemiNormal(c) == c.(npdu := NpduFrame(c.npdu.tcpi, DataApci(a.apciType,
        if a.data == [] then [0] else a.data, a.data == [] || Compact(a))))
  {
    ControlRoundTrip(c.control, []);
    NormalAddresses(c.source);
    NormalAddresses(c.destination.address);
    SmallFields(c.npdu.tcpi.sequence, c.npdu.apci.apciType);
    hide ControlNormal, IndividualNormal, GroupNormal, Compact;
  }

  lemma SmallFields(sequence: byte, apciType: byte)
    requires sequence < 4 && apciType < 8
    ensures sequence & 0x03 == sequence && apciType & 0x07 == apciType
  {
  }

  /** The bytes of a frame that a parse followed by a write keeps: bit 6 of the
      first control byte, the low nibble of the second, bits 6, 3, 2 and 1 of the
      first NPDU byte and, for a payload outside it, the low six bits of the
      second NPDU byte are cleared. */
  function KeptControl1(b: byte): byte {
    b & 0xBF
  }

  function KeptControl2(b: byte): byte {
    b & 0xF0
  }

  function BodyMask(bs: seq<byte>): seq<byte>
    requires |bs| >= 9
  {
    [KeptControl1(bs[0]), KeptControl2(bs[1])] + bs[2..6] + NpduMask(bs[6..])
  }

  lemma ControlKept(byte1: byte, byte2: byte)
    ensures ControlBytes(ControlOf(byte1, byte2)) == [KeptControl1(byte1), KeptControl2(byte2)]
  {
    ControlMask(byte1, byte2);
    hide ControlBytes, ControlOf;
  }

  /** The position of the first control byte of an accepted frame. */
  function BodyStart(c: Cemi): nat {
    2 + AI.Size(c.info)
  }

  lemma BodyMasked(messageCode: byte, info: seq<AI.Element>, bs: seq<byte>)
    requires ParseBody(messageCode, info, bs).Ok?
    ensures var p := ParseBody(messageCode, info, bs);
      && |p.rest| + 9 <= |bs| && bs[|bs| - |p.rest|..] == p.rest
      && Body(p.value) == BodyMask(bs[..|bs| - |p.rest|])
  {
    hide ControlOf, ControlBytes, IndividualBytes, GroupBytes, ParseNpdu, NpduBytes, NpduMask, KeptControl1,
      KeptControl2;
    var p := ParseBody(messageCode, info, bs);
    var n := bs[6..];
    assert ParseNpdu(n).Ok? && p.rest == ParseNpdu(n).rest && p.value.npdu == ParseNpdu(n).value
      && p.value.control == ControlOf(bs[0], bs[1])
      && p.value.source == ParseIndividual(bs[2..]).value
      && p.value.destination == ParseDestination(p.value.control.destinationIsGroup, bs[4..]).value by {
      BodyFields(messageCode, info, bs);
    }
    hide ParseBody, ParseIndividual, ParseGroup;
    NpduMasked(n);
    ControlKept(bs[0], bs[1]);
    AddressBytesBack(bs[2..]);
    AddressBytesBack(bs[4..]);
    var end := |bs| - |p.rest|;
    assert n[|n| - |p.rest|..] == bs[end..];
    assert n[..|n| - |p.rest|] == bs[..end][6..];
    assert bs[2..][..2] + bs[4..][..2] == bs[..end][2..6];
    assert DestinationBytes(p.value.destination) == bs[4..][..2];
    BodyJoin(ControlBytes(p.value.control), IndividualBytes(p.value.source),
             DestinationBytes(p.value.destination), NpduBytes(p.value.npdu));
  }

  lemma BodyJoin(a: seq<byte>, b: seq<byte>, c: seq<byte>, d: seq<byte>)
    ensures a + (b + (c + d)) == a + (b + c) + d
  {
  }

  lemma BodyFields(messageCode: byte, info: seq<AI.Element>, bs: seq<byte>)
    requires ParseBody(messageCode, info, bs).Ok?
    ensures |bs| >= 6
    ensures ParseNpdu(bs[6..]).Ok?
    ensures var c := ParseBody(messageCode, info, bs).value;
      && c.control == ControlOf(bs[0], bs[1])
      && c.source == ParseIndividual(bs[2..]).value
      && c.destination == ParseDestination(c.control.destinationIsGroup, bs[4..]).value
      && c.npdu == ParseNpdu(bs[6..]).value
    ensures ParseBody(messageCode, info, bs).rest == ParseNpdu(bs[6..]).rest
  {
    hide ControlOf, ParseNpdu;
    assert bs[2..][2..] == bs[4..];
    assert bs[4..][2..] == bs[6..];
  }

  /** Writing a parsed frame gives the bytes it was parsed from with a fixed mask
      cleared, so it is the identity exactly when those bits are zero. */
  lemma WriteAfterParse(bs: seq<byte>)
    requires ParseCemi(bs).Ok?
    ensures var p := ParseCemi(bs);
      var consumed, at := bs[..|bs| - |p.rest|], BodyStart(p.value);
      && |p.rest| <= |bs| && bs == consumed + p.rest && at + 9 <= |consumed|
      && CemiBytes(p.value) == consumed[..at] + BodyMask(consumed[at..])
      && (CemiBytes(p.value) == consumed <==> BodyMask(consumed[at..]) == consumed[at..])
  {
    hide ParseBody, AI.ParseInfo, AI.Size, BodyMask, Body, AI.InfoBytes;
    var p := ParseCemi(bs);
    var q := AI.ParseInfo(bs[1..]);
    AI.ParsedInfo(bs[1..]);
    InfoLength(q.value);
    BodyMasked(bs[0], q.value, q.rest);
    ParsedKeeps(bs[0], q.value, q.rest);
    var at, end := BodyStart(p.value), |bs| - |p.rest|;
    var consumed := bs[..end];
    FrameAt(bs, AI.InfoBytes(q.value), q.rest);
    assert consumed[..at] == bs[..at];
    assert consumed[at..] == q.rest[..|q.rest| - |p.rest|];
    assert [bs[0]] + (AI.InfoBytes(q.value) + Body(p.value)) == ([bs[0]] + AI.InfoBytes(q.value)) + Body(p.value);
    assert consumed == consumed[..at] + consumed[at..];
  }

  lemma InfoLength(info: seq<AI.Element>)
    ensures |AI.InfoBytes(info)| == 1 + AI.Size(info)
  {
    AI.ElementsLength(info);
  }

  lemma ParsedKeeps(messageCode: byte, info: seq<AI.Element>, bs: seq<byte>)
    requires ParseBody(messageCode, info, bs).Ok?
    ensures var c := ParseBody(messageCode, info, bs).value; c.messageCode == messageCode && c.info == info
  {
    ParsedBody(messageCode, info, bs);
    hide ParseBody;
  }

  lemma FrameAt(bs: seq<byte>, info: seq<byte>, rest: seq<byte>)
    requires bs != [] && bs[1..] == info + rest
    ensures bs[..1 + |info|] == [bs[0]] + info && bs[1 + |info|..] == rest
  {
    assert bs == [bs[0]] + bs[1..];
  }

  method Read(reader: ByteBufferReader) returns (r: Result<Cemi, ParseError>)
    requires reader.Valid() && ParseCemi(reader.Rest()) != Fail(OutOfBounds)
    modifies reader
    ensures reader.Valid()
    ensures match ParseCemi(old(reader.Rest()))
            case Ok(c, rest) => r == Success(c) && reader.Rest() == rest
            case Fail(error) => r == Failure(error)
  {
    hide AI.ParseInfo, ParseControl, ParseIndividual, ParseGroup, ParseNpdu;
    var messageCode := reader.ReadUint8();
    assert old(reader.Rest())[1..] == reader.Rest();
    InfoFits(reader.Rest());
    var info := AI.Parse(reader);
    var control := ReadControl(reader);
    var source := ReadIndividual(reader);
    var destination: Destination;
    if control.destinationIsGroup {
      var a := ReadGroup(reader);
      destination := Group(a);
    } else {
      var a := ReadIndividual(reader);
      destination := Individual(a);
    }
    var npdu := ReadNpdu(reader);
    match npdu {
      case Success(n) => r := Success(Cemi(messageCode, info, control, source, destination, n));
      case Failure(error) => r := Failure(error);
    }
  }

  /** Only the NPDU can fail otherwise than by running out of bytes. */
  lemma InfoFits(bs: seq<byte>)
    ensures AI.ParseInfo(bs).Fail? ==> AI.ParseInfo(bs).error == OutOfBounds
    ensures forall b :: ParseControl(b).Fail? ==> ParseControl(b).error == OutOfBounds
    ensures forall b :: ParseIndividual(b).Fail? ==> ParseIndividual(b).error == OutOfBounds
    ensures forall b :: ParseGroup(b).Fail? ==> ParseGroup(b).error == OutOfBounds
  {
    if bs != [] {
      ElementsFit(bs[0], bs[1..]);
    }
  }

  lemma {:induction false} ElementsFit(remaining: byte, bs: seq<byte>)
    ensures AI.ParseElements(remaining, bs).Fail? ==> AI.ParseElements(remaining, bs).error == OutOfBounds
    decreases |bs|
  {
    hide AI.Less8, Numeral;
    if remaining != 0 && |bs| >= 2 && |bs| >= 2 + Numeral(bs[1]) {
      var size := 2 + Numeral(bs[1]);
      ElementsFit(AI.Less8(remaining, size), bs[size..]);
    }
  }

  method Write(c: Cemi, writer: ByteBufferWriter)
    modifies writer
    ensures writer.data == old(writer.data) + CemiBytes(c)
  {
    hide AI.InfoBytes, ControlBytes, IndividualBytes, GroupBytes, NpduBytes;
    ghost var before := writer.data;
    writer.WriteUint8(c.messageCode);
    AI.Write(c.info, writer);
    WriteControl(c.control, writer);
    WriteIndividual(c.source, writer);
    match c.destination {
      case Individual(a) => WriteIndividual(a, writer);
      case Group(a) => WriteGroup(a, writer);
    }
    WriteNpdu(c.npdu, writer);
    Appended(before, [c.messageCode], AI.InfoBytes(c.info), ControlBytes(c.control), IndividualBytes(c.source),
             DestinationBytes(c.destination), NpduBytes(c.npdu));
  }

  lemma Appended(x: seq<byte>, a: seq<byte>, b: seq<byte>, c: seq<byte>, d: seq<byte>, e: seq<byte>, f: seq<byte>)
    ensures x + a + b + c + d + e + f == x + (a + (b + (c + (d + (e + f)))))
  {
    assert x + a + b + c + d + e + f == x + a + b + c + d + (e + f);
    assert x + a + b + c + d + (e + f) == x + a + b + c + (d + (e + f));
    assert x + a + b + c + (d + (e + f)) == x + a + b + (c + (d + (e + f)));
    assert x + a + b + (c + (d + (e + f))) == x + a + (b + (c + (d + (e + f))));
  }
}
