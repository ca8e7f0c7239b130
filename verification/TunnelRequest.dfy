/** The KNXnet/IP frames of a tunnelling connection: the common header, the
    connection header and the tunnelling request and acknowledge around it. */
module TunnelFrames {
  import opened Bytes
  import opened Wrappers
  import opened ByteBuffers
  import opened CemiFrames

  const TUNNEL_REQUEST: bv16 := 0x0420
  const TUNNEL_ACK: bv16 := 0x0421
  const SIZE_HEADER := 6
  const PROTOCOL_VERSION: byte := 0x10
  const MAX_SIZE: byte := 255

  datatype KnxIpHeader = KnxIpHeader(serviceType: bv16, lengthInBytes: bv16)

  datatype ConnectionHeader = ConnectionHeader(channel: byte, sequence: byte, status: byte)

  datatype TunnelRequest = TunnelRequest(header: ConnectionHeader, cemi: Cemi)

  /** A structure starts with its length, in one byte or, from 255 on, in an
      escape byte and a 16-bit word, and its type. */
  function StructureBytes(length: bv16, structureType: byte): seq<byte> {
    (if length >= 255 then [MAX_SIZE] + BigEndian16(length) else [Low(length)]) + [structureType]
  }

  function Widen(b: byte): bv16 {
    b as bv16
  }

  function ParseLength(bs: seq<byte>): Parsed<bv16> {
    if bs == [] then Fail(OutOfBounds)
    else if bs[0] != MAX_SIZE then Ok(Widen(bs[0]), bs[1..])
    else if |bs| < 3 then Fail(OutOfBounds)
    else Ok(Join16(bs[1], bs[2]), bs[3..])
  }

  /** The length that a parse reports leaves out two bytes, and wraps below them. */
  function ParseStructure(bs: seq<byte>): Parsed<(bv16, byte)> {
    var (length, rest) :- ParseLength(bs);
    if rest == [] then Fail(OutOfBounds) else Ok((length - 2, rest[0]), rest[1..])
  }

  function ConnectionHeaderBytes(h: ConnectionHeader): seq<byte> {
    StructureBytes(4, h.channel) + [h.sequence, h.status]
  }

  function ParseConnectionHeader(bs: seq<byte>): Parsed<ConnectionHeader> {
    var (structure, rest) :- ParseStructure(bs);
    if |rest| < 2 then Fail(OutOfBounds)
    else Ok(ConnectionHeader(structure.1, rest[0], rest[1]), rest[2..])
  }

  function IpHeaderBytes(h: KnxIpHeader): (bs: seq<byte>)
    ensures |bs| == SIZE_HEADER
  {
    [0x06, PROTOCOL_VERSION] + BigEndian16(h.serviceType) + BigEndian16(h.lengthInBytes)
  }

  /** The first two bytes are skipped unseen. */
  function ParseIpHeader(bs: seq<byte>): Parsed<KnxIpHeader> {
    if |bs| < SIZE_HEADER then Fail(OutOfBounds)
    else Ok(KnxIpHeader(Join16(bs[2], bs[3]), Join16(bs[4], bs[5])), bs[SIZE_HEADER..])
  }

  function RequestBody(r: TunnelRequest): seq<byte> {
    ConnectionHeaderBytes(r.header) + CemiBytes(r.cemi)
  }

  function TunnelRequestBytes(r: TunnelRequest): seq<byte> {
    IpHeaderBytes(KnxIpHeader(TUNNEL_REQUEST, Cast16(|RequestBody(r)| + SIZE_HEADER))) + RequestBody(r)
  }

  function ParseTunnelRequest(bs: seq<byte>): Parsed<TunnelRequest> {
    var (header, afterHeader) :- ParseConnectionHeader(bs);
    var (cemi, rest) :- ParseCemi(afterHeader);
    Ok(TunnelRequest(header, cemi), rest)
  }

  /** The acknowledge echoes the connection header of the request. */
  function TunnelAckBytes(h: ConnectionHeader): seq<byte> {
    IpHeaderBytes(KnxIpHeader(TUNNEL_ACK, 10)) + ConnectionHeaderBytes(h)
  }

  lemma StructureRoundTrip(length: bv16, structureType: byte, rest: seq<byte>)
    ensures ParseStructure(StructureBytes(length, structureType) + rest) == Ok((length - 2, structureType), rest)
  {
    var bs := StructureBytes(length, structureType) + rest;
    JoinSplit(length);
    if length >= 255 {
      hide High, Low, Join16;
      assert bs[3..] == [structureType] + rest;
    } else {
      ShortLength(length);
      hide Low, Widen;
      assert bs[1..] == [structureType] + rest;
    }
    assert ([structureType] + rest)[1..] == rest;
  }

  lemma ShortLength(length: bv16)
    requires length < 255
    ensures Low(length) != MAX_SIZE && Widen(Low(length)) == length
  {
  }

  lemma ConnectionHeaderRoundTrip(h: ConnectionHeader, rest: seq<byte>)
    ensures ParseConnectionHeader(ConnectionHeaderBytes(h) + rest) == Ok(h, rest)
  {
    hide StructureBytes, ParseStructure;
    var tail := [h.sequence, h.status] + rest;
    assert ConnectionHeaderBytes(h) + rest == StructureBytes(4, h.channel) + tail;
    StructureRoundTrip(4, h.channel, tail);
    assert tail[2..] == rest;
  }

  lemma IpHeaderRoundTrip(h: KnxIpHeader, rest: seq<byte>)
    ensures ParseIpHeader(IpHeaderBytes(h) + rest) == Ok(h, rest)
  {
    JoinSplit(h.serviceType);
    JoinSplit(h.lengthInBytes);
    hide High, Low, Join16;
    assert (IpHeaderBytes(h) + rest)[SIZE_HEADER..] == rest;
  }

  /** The common header of a written request carries the number of bytes written,
      as long as that number fits its field. */
  lemma LengthField(r: TunnelRequest)
    ensures var bs := TunnelRequestBytes(r);
      && ParseIpHeader(bs).Ok?
      && ParseIpHeader(bs).value == KnxIpHeader(TUNNEL_REQUEST, Cast16(|bs|))
      && (|bs| < 65536 ==> ParseIpHeader(bs).value.lengthInBytes as int == |bs|)
  {
    var body := RequestBody(r);
    hide RequestBody, Cast16;
    var h := KnxIpHeader(TUNNEL_REQUEST, Cast16(|body| + SIZE_HEADER));
    IpHeaderRoundTrip(h, body);
    hide IpHeaderBytes, ParseIpHeader;
    if |body| + SIZE_HEADER < 65536 {
      Cast16Value(|body| + SIZE_HEADER);
    }
  }

  /** A written request, read back by the header parser and then by the request
      parser, gives its service type, channel, sequence and status and the normal
      form of its cEMI frame, if and only if that frame is writable. */
  lemma TunnelRequestRoundTrip(r: TunnelRequest, rest: seq<byte>)
    ensures var p := ParseIpHeader(TunnelRequestBytes(r) + rest);
      && p.Ok? && p.value.serviceType == TUNNEL_REQUEST
      && (ParseTunnelRequest(p.rest) == Ok(TunnelRequest(r.header, CemiNormal(r.cemi)), rest) <==> Writable(r.cemi))
  {
    hide CemiBytes, ParseCemi, CemiNormal, Writable, IpHeaderBytes, ParseIpHeader, ConnectionHeaderBytes,
      ParseConnectionHeader, Cast16;
    var body := RequestBody(r);
    var h := KnxIpHeader(TUNNEL_REQUEST, Cast16(|body| + SIZE_HEADER));
    assert TunnelRequestBytes(r) + rest == IpHeaderBytes(h) + (body + rest) by {
      Assoc(IpHeaderBytes(h), body, rest);
    }
    IpHeaderRoundTrip(h, body + rest);
    Assoc(ConnectionHeaderBytes(r.header), CemiBytes(r.cemi), rest);
    ConnectionHeaderRoundTrip(r.header, CemiBytes(r.cemi) + rest);
    CemiRoundTrip(r.cemi, rest);
  }

  lemma Assoc(a: seq<byte>, b: seq<byte>, c: seq<byte>)
    ensures a + b + c == a + (b + c)
  {
  }

  /** The acknowledge written for a request is ten bytes long, says so, and reads
      back as the connection header of the request. */
  lemma TunnelAckRoundTrip(h: ConnectionHeader, rest: seq<byte>)
    ensures |TunnelAckBytes(h)| == 10
    ensures var p := ParseIpHeader(TunnelAckBytes(h) + rest);
      && p.Ok? && p.value == KnxIpHeader(TUNNEL_ACK, 10) && p.value.lengthInBytes as int == 10
      && ParseConnectionHeader(p.rest) == Ok(h, rest)
  {
    FourIsShort(h);
    hide IpHeaderBytes, ParseIpHeader, ConnectionHeaderBytes, ParseConnectionHeader;
    Assoc(IpHeaderBytes(KnxIpHeader(TUNNEL_ACK, 10)), ConnectionHeaderBytes(h), rest);
    IpHeaderRoundTrip(KnxIpHeader(TUNNEL_ACK, 10), ConnectionHeaderBytes(h) + rest);
    ConnectionHeaderRoundTrip(h, rest);
  }

  lemma FourIsShort(h: ConnectionHeader)
    ensures |ConnectionHeaderBytes(h)| == 4
  {
  }

  method WriteStructure(length: bv16, structureType: byte, writer: ByteBufferWriter)
    modifies writer
    ensures writer.data == old(writer.data) + StructureBytes(length, structureType)
  {
    hide High, Low;
    if length >= MAX_SIZE as bv16 {
      writer.WriteUint8(MAX_SIZE);
      writer.WriteUint16(length);
    } else {
      LowByte(length);
      writer.WriteUint8((length & 0xFF) as byte);
    }
    writer.WriteUint8(structureType);
  }

  lemma LowByte(length: bv16)
    ensures (length & 0xFF) as byte == Low(length)
  {
  }

  method WriteConnectionHeader(h: ConnectionHeader, writer: ByteBufferWriter)
    modifies writer
    ensures writer.data == old(writer.data) + ConnectionHeaderBytes(h)
  {
    hide StructureBytes;
    WriteStructure(4, h.channel, writer);
    writer.WriteUint8(h.sequence);
    writer.WriteUint8(h.status);
  }

  method WriteIpHeader(h: KnxIpHeader, writer: ByteBufferWriter)
    modifies writer
    ensures writer.data == old(writer.data) + IpHeaderBytes(h)
    ensures writer.data ==
      old(writer.data) + ([0x06, 0x10] + BigEndian16(h.serviceType) + BigEndian16(h.lengthInBytes))
  {
    hide High, Low;
    writer.WriteUint8(0x06);
    writer.WriteUint8(PROTOCOL_VERSION);
    writer.WriteUint16(h.serviceType);
    writer.WriteUint16(h.lengthInBytes);
  }

  method WriteTunnelRequest(r: TunnelRequest, writer: ByteBufferWriter)
    modifies writer
    ensures writer.data == old(writer.data) + TunnelRequestBytes(r)
  {
    hide ConnectionHeaderBytes, CemiBytes, IpHeaderBytes, Cast16;
    var requestWriter := new ByteBufferWriter();
    WriteConnectionHeader(r.header, requestWriter);
    CemiFrames.Write(r.cemi, requestWriter);
    assert requestWriter.data == RequestBody(r);
    WriteIpHeader(KnxIpHeader(TUNNEL_REQUEST, Cast16(|requestWriter.data| + SIZE_HEADER)), writer);
    writer.WriteVector(requestWriter.data);
    Assoc(old(writer.data), IpHeaderBytes(KnxIpHeader(TUNNEL_REQUEST, Cast16(|RequestBody(r)| + SIZE_HEADER))),
          RequestBody(r));
  }

  /** `TunnelAckResponse::toBytes`. */
  method WriteTunnelAck(h: ConnectionHeader, writer: ByteBufferWriter)
    modifies writer
    ensures writer.data == old(writer.data) + TunnelAckBytes(h)
  {
    hide ConnectionHeaderBytes, IpHeaderBytes;
    WriteIpHeader(KnxIpHeader(TUNNEL_ACK, 10), writer);
    WriteConnectionHeader(h, writer);
    Assoc(old(writer.data), IpHeaderBytes(KnxIpHeader(TUNNEL_ACK, 10)), ConnectionHeaderBytes(h));
  }

  method ReadLength(reader: ByteBufferReader) returns (length: bv16)
    requires reader.Valid() && ParseLength(reader.Rest()).Ok?
    modifies reader
    ensures reader.Valid()
    ensures ParseLength(old(reader.Rest())) == Ok(length, reader.Rest())
  {
    hide Join16, Widen;
    ghost var bs := reader.Rest();
    var first := reader.ReadUint8();
    ghost var afterFirst := reader.Rest();
    assert bs[1..] == afterFirst;
    length := Widen(first);
    Widened(first);
    if length == Widen(MAX_SIZE) {
      assert bs[1] == afterFirst[0] && bs[2] == afterFirst[1] && bs[3..] == afterFirst[2..];
      length := reader.ReadUint16();
    }
  }

  lemma Widened(b: byte)
    ensures Widen(b) == Widen(MAX_SIZE) <==> b == MAX_SIZE
  {
  }

  method ReadStructure(reader: ByteBufferReader) returns (length: bv16, structureType: byte)
    requires reader.Valid() && ParseStructure(reader.Rest()).Ok?
    modifies reader
    ensures reader.Valid()
    ensures ParseStructure(old(reader.Rest())) == Ok((length, structureType), reader.Rest())
  {
    hide ParseLength;
    length := ReadLength(reader);
    length := length - 2;
    ghost var tail := reader.Rest();
    structureType := reader.ReadUint8();
    assert tail[1..] == reader.Rest();
  }

  method ReadConnectionHeader(reader: ByteBufferReader) returns (h: ConnectionHeader)
    requires reader.Valid() && ParseConnectionHeader(reader.Rest()).Ok?
    modifies reader
    ensures reader.Valid()
    ensures ParseConnectionHeader(old(reader.Rest())) == Ok(h, reader.Rest())
  {
    hide ParseStructure;
    var length, channel := ReadStructure(reader);
    ghost var tail := reader.Rest();
    var sequence := reader.ReadUint8();
    var status := reader.ReadUint8();
    assert tail == [sequence, status] + reader.Rest();
    h := ConnectionHeader(channel, sequence, status);
  }

  method ReadIpHeader(reader: ByteBufferReader) returns (h: KnxIpHeader)
    requires reader.Valid() && ParseIpHeader(reader.Rest()).Ok?
    modifies reader
    ensures reader.Valid()
    ensures ParseIpHeader(old(reader.Rest())) == Ok(h, reader.Rest())
  {
    hide Join16;
    ghost var bs := reader.Rest();
    reader.Skip(2);
    var serviceType := reader.ReadUint16();
    assert bs[4..] == reader.Rest();
    var lengthInBytes := reader.ReadUint16();
    assert bs[6..] == reader.Rest();
    h := KnxIpHeader(serviceType, lengthInBytes);
  }

  method ReadTunnelRequest(reader: ByteBufferReader) returns (r: Result<TunnelRequest, ParseError>)
    requires reader.Valid() && ParseTunnelRequest(reader.Rest()) != Fail(OutOfBounds)
    modifies reader
    ensures reader.Valid()
    ensures match ParseTunnelRequest(old(reader.Rest()))
            case Ok(request, rest) => r == Success(request) && reader.Rest() == rest
            case Fail(error) => r == Failure(error)
  {
    hide ParseCemi, ParseConnectionHeader;
    HeaderFits(reader.Rest());
    var header := ReadConnectionHeader(reader);
    var cemi := CemiFrames.Read(reader);
    match cemi {
      case Success(c) => r := Success(TunnelRequest(header, c));
      case Failure(error) => r := Failure(error);
    }
  }

  lemma HeaderFits(bs: seq<byte>)
    ensures ParseConnectionHeader(bs).Fail? ==> ParseConnectionHeader(bs).error == OutOfBounds
  {
  }
}
