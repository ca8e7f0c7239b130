/** The bytes on the wire, as numbers: every field at its place, for all frames.  The
    round trips say that parser and writer agree; this says what they agree on. */
module Datagrams {
  import opened Bytes
  import opened Wrappers
  import opened ByteBuffers
  import opened KnxAddresses
  import opened Npdu
  import opened CemiFrames
  import opened TunnelFrames
  import opened ClientRouting
  import AI = AdditionalInformation
  import C = Controls

  // ------------------------------------------------------------ the tunnelling headers

  lemma LengthBytes(n: nat)
    ensures High(Cast16(n)) == Cast8(n / 256) && Low(Cast16(n)) == Cast8(n % 256)
    ensures Numeral(Cast8(n / 256)) * 256 + Numeral(Cast8(n % 256)) == n % 65536
  {
    SplitJoin(Cast8(n / 256), Cast8(n % 256));
    hide Cast8, High, Low, Join16, Numeral;
    CastRemainder(n / 256);
    CastNumeral(n / 256 % 256);
    CastNumeral(n % 256);
    TwoDigits(n);
  }

  lemma TwoDigits(n: nat)
    ensures (n / 256 % 256) * 256 + n % 256 == n % 65536
  {
    var q, d := n / 65536, n % 65536;
    assert n == 65536 * q + d;
    assert n / 256 == 256 * q + d / 256;
    assert n % 256 == d % 256;
  }

  lemma ServiceBytes()
    ensures BigEndian16(TUNNEL_REQUEST) == [0x04, 0x20] && BigEndian16(TUNNEL_ACK) == [0x04, 0x21]
    ensures BigEndian16(10) == [0x00, 0x0A]
  {
  }

  lemma HeaderBytes(h: ConnectionHeader)
    ensures ConnectionHeaderBytes(h) == [0x04, h.channel, h.sequence, h.status]
  {
    assert Low(4) == 4;
  }

  /** Every written tunnelling request starts with 06 10 04 20 and its own length, high
      byte first, then 04, channel, sequence and status, and the cEMI frame ends it. */
  lemma RequestDatagram(r: TunnelRequest)
    ensures var bs := TunnelRequestBytes(r);
      && |bs| == 10 + |CemiBytes(r.cemi)|
      && bs[..4] == [0x06, 0x10, 0x04, 0x20]
      && Numeral(bs[4]) * 256 + Numeral(bs[5]) == |bs| % 65536
      && bs[6..10] == [0x04, r.header.channel, r.header.sequence, r.header.status]
      && bs[10..] == CemiBytes(r.cemi)
  {
    var body := CemiBytes(r.cemi);
    var n := 10 + |body|;
    var front := [0x06, 0x10, 0x04, 0x20, Cast8(n / 256), Cast8(n % 256)];
    var header := [0x04, r.header.channel, r.header.sequence, r.header.status];
    RequestParts(r);
    LengthBytes(n);
    hide CemiBytes, TunnelRequestBytes, Cast8, Cast16, Numeral;
    ThreeParts(front, header, body);
  }

  lemma ThreeParts(front: seq<byte>, header: seq<byte>, body: seq<byte>)
    requires |front| == 6 && |header| == 4
    ensures var bs := front + (header + body);
      && |bs| == 10 + |body| && bs[..4] == front[..4] && bs[4] == front[4] && bs[5] == front[5]
      && bs[6..10] == header && bs[10..] == body
  {
  }

  lemma RequestParts(r: TunnelRequest)
    ensures var n := 10 + |CemiBytes(r.cemi)|;
      TunnelRequestBytes(r) ==
        [0x06, 0x10, 0x04, 0x20, Cast8(n / 256), Cast8(n % 256)]
        + ([0x04, r.header.channel, r.header.sequence, r.header.status] + CemiBytes(r.cemi))
  {
    var n := 10 + |CemiBytes(r.cemi)|;
    ServiceBytes();
    HeaderBytes(r.header);
    LengthBytes(n);
    hide CemiBytes, ConnectionHeaderBytes, Cast8, Cast16, High, Low, Numeral;
    assert |RequestBody(r)| + SIZE_HEADER == n;
    assert IpHeaderBytes(KnxIpHeader(TUNNEL_REQUEST, Cast16(n))) ==
      [0x06, 0x10, 0x04, 0x20, Cast8(n / 256), Cast8(n % 256)];
  }

  /** Every acknowledge is these ten bytes. */
  lemma AckDatagram(h: ConnectionHeader)
    ensures TunnelAckBytes(h) ==
      [0x06, 0x10, 0x04, 0x21, 0x00, 0x0A, 0x04, h.channel, h.sequence, h.status]
  {
    ServiceBytes();
    HeaderBytes(h);
    hide ConnectionHeaderBytes, High, Low;
  }

  // ------------------------------------------------------------ the cEMI frame

  function Weight(flag: bool, weight: byte): byte {
    if flag then weight else 0
  }

  /** The control bytes: frame type 128, repeat 32, broadcast 16, four times the
      priority, no acknowledge wanted 2, no confirmation on error 1; then group 128
      and sixteen times the hop count. */
  lemma ControlLayout(c: C.Control)
    requires c.hopCount < 8
    ensures C.ControlBytes(c) == [
      Weight(c.standardFrameType, 128) + Weight(c.repeatOnError, 32) + Weight(c.systemBroadcast, 16)
        + (match c.priority case System => 0 case Normal => 4 case Urgent => 8 case Low => 12)
        + Weight(!c.acknowledgeWanted, 2) + Weight(!c.confirmationOnError, 1),
      Weight(c.destinationIsGroup, 128) + 16 * c.hopCount]
  {
  }

  /** An individual address is area, line and device in 4, 4 and 8 bits, a group
      address main, middle and sub group in 5, 3 and 8. */
  lemma AddressLayout(a: KnxAddress)
    ensures IndividualInRange(a) ==> IndividualBytes(a) == [16 * a.high + a.middle, a.low]
    ensures GroupInRange(a) ==> GroupBytes(a) == [8 * a.high + a.middle, a.low]
  {
  }

  /** The network layer part: the number of bytes behind it less one, the sequence
      flag 128 and sixteen times the sequence with the upper type bit, the lower type
      bits with a compact payload, and any other payload behind. */
  lemma NpduLayout(n: NpduFrame)
    requires n.tcpi.sequence < 4 && n.apci.apciType < 8
    ensures var a := n.apci;
      NpduBytes(n) ==
        [if Compact(a) || a.data == [] then 1 else Cast8(|a.data| + 1),
         Weight(n.tcpi.hasSequence, 128) + 16 * n.tcpi.sequence + (if a.apciType < 4 then 0 else 1),
         64 * (if a.apciType < 4 then a.apciType else a.apciType - 4) + (if Compact(a) then a.data[0] else 0)]
        + (if Compact(a) then [] else a.data)
  {
    NpduBits(n);
    hide FirstByte, SecondByte, Compact, Cast8;
  }

  lemma NpduBits(n: NpduFrame)
    requires n.tcpi.sequence < 4 && n.apci.apciType < 8
    ensures var a := n.apci;
      && FirstByte(n) ==
           Weight(n.tcpi.hasSequence, 128) + 16 * n.tcpi.sequence + (if a.apciType < 4 then 0 else 1)
      && SecondByte(a) ==
           64 * (if a.apciType < 4 then a.apciType else a.apciType - 4) + (if Compact(a) then a.data[0] else 0)
  {
  }

  lemma CemiLayout(c: Cemi)
    requires c.info == []
    ensures CemiBytes(c) == [c.messageCode, 0x00] + C.ControlBytes(c.control) + IndividualBytes(c.source)
      + DestinationBytes(c.destination) + NpduBytes(c.npdu)
  {
    hide C.ControlBytes, IndividualBytes, DestinationBytes, NpduBytes;
    assert AI.InfoBytes([]) == [0x00];
  }

  /** One element of additional information: the total, the type, its length, the data. */
  lemma InfoLayout(infoType: byte, data: seq<byte>)
    requires |data| < 254
    ensures var bs := AI.InfoBytes([AI.Element(infoType, data)]);
      && |bs| == 3 + |data| && Numeral(bs[0]) == 2 + |data| && bs[1] == infoType && Numeral(bs[2]) == |data|
      && bs[3..] == data
  {
    CastNumeral(|data|);
    CastNumeral(2 + |data|);
    OneElement(infoType, data);
    hide Cast8, Numeral, AI.InfoBytes;
    ThreeBefore(Cast8(2 + |data|), infoType, Cast8(|data|), data);
  }

  lemma ThreeBefore(a: byte, b: byte, c: byte, data: seq<byte>)
    ensures var bs := [a, b, c] + data;
      |bs| == 3 + |data| && bs[0] == a && bs[1] == b && bs[2] == c && bs[3..] == data
  {
  }

  lemma OneElement(infoType: byte, data: seq<byte>)
    ensures AI.InfoBytes([AI.Element(infoType, data)]) ==
      [Cast8(2 + |data|), infoType, Cast8(|data|)] + data
  {
    var e := AI.Element(infoType, data);
    SingleElement(e);
    hide Cast8, AI.Size, AI.ElementsBytes;
    InFront(Cast8(2 + |data|), infoType, Cast8(|data|), data);
  }

  lemma InFront(a: byte, b: byte, c: byte, data: seq<byte>)
    ensures [a] + ([b, c] + data) == [a, b, c] + data
  {
  }

  lemma SingleElement(e: AI.Element)
    ensures AI.Size([e]) == 2 + |e.data| && AI.ElementsBytes([e]) == AI.ElementBytes(e)
  {
    hide Cast8;
    assert [e][1..] == [];
    assert AI.ElementsBytes([]) == [];
  }

  // ------------------------------------------------------------ what the client sends

  /** The fixed part of every group frame of the client. */
  lemma GroupFrameLayout(a: KnxAddress, apci: DataApci)
    requires GroupInRange(a) && apci.apciType < 4
    ensures CemiBytes(GroupFrame(a, apci)) ==
      [0x11, 0x00, 0xAC, 0xD0, 0x00, 0x00, 8 * a.high + a.middle, a.low]
      + NpduBytes(NpduFrame(Tcpi(false, false, 0), apci))
  {
    var c := GroupFrame(a, apci);
    ControlLayout(c.control);
    AddressLayout(c.source);
    AddressLayout(a);
    CemiLayout(c);
    hide CemiBytes, NpduBytes, C.ControlBytes, IndividualBytes, GroupBytes, GroupInRange, IndividualInRange;
  }

  function GroupFront(a: KnxAddress): seq<byte> {
    [0x11, 0x00, 0xAC, 0xD0, 0x00, 0x00, 8 * a.high + a.middle, a.low]
  }

  lemma ReadBytes(a: KnxAddress)
    requires GroupInRange(a)
    ensures CemiBytes(GroupRead(a)) == GroupFront(a) + [0x01, 0x00, 0x00]
  {
    var apci := DataApci(GROUP_VALUE_READ, [], true);
    GroupFrameLayout(a, apci);
    NpduLayout(NpduFrame(Tcpi(false, false, 0), apci));
    hide CemiBytes, NpduBytes, GroupFrame, GroupInRange, Cast8;
  }

  lemma WriteByteBytes(a: KnxAddress, b: byte, only6Bits: bool)
    requires GroupInRange(a)
    ensures CemiBytes(GroupWriteByte(a, b, only6Bits)) ==
      GroupFront(a) + (if only6Bits && b < 64 then [0x01, 0x00, 0x80 + b] else [0x02, 0x00, 0x80, b])
  {
    var apci := DataApci(GROUP_VALUE_WRITE, [b], only6Bits);
    GroupFrameLayout(a, apci);
    OneByteNpdu(b, only6Bits);
    hide CemiBytes, NpduBytes, GroupFrame, GroupInRange, GroupFront;
  }

  lemma OneByteNpdu(b: byte, only6Bits: bool)
    ensures NpduBytes(NpduFrame(Tcpi(false, false, 0), DataApci(GROUP_VALUE_WRITE, [b], only6Bits))) ==
      if only6Bits && b < 64 then [0x01, 0x00, 0x80 + b] else [0x02, 0x00, 0x80, b]
  {
    var apci := DataApci(GROUP_VALUE_WRITE, [b], only6Bits);
    NpduLayout(NpduFrame(Tcpi(false, false, 0), apci));
    SixBits(apci, b);
    TwoBytes();
    hide NpduBytes, Cast8, Compact;
  }

  lemma TwoBytes()
    ensures Cast8(2) == 2
  {
    assert Cast8(1) == 1;
  }

  lemma WriteRunBytes(a: KnxAddress, value: seq<byte>)
    requires GroupInRange(a)
    ensures CemiBytes(GroupWrite(a, value)) ==
      GroupFront(a) + ([if value == [] then 0x01 else Cast8(|value| + 1), 0x00, 0x80] + value)
  {
    var apci := DataApci(GROUP_VALUE_WRITE, value, false);
    GroupFrameLayout(a, apci);
    NpduLayout(NpduFrame(Tcpi(false, false, 0), apci));
    hide CemiBytes, NpduBytes, GroupFrame, GroupInRange, Cast8;
  }

  /** The cEMI frames of a group read and of a group write, byte by byte: a value of one
      byte travels inside the last byte when it is said to fit six bits and does. */
  lemma GroupFrameBytes(a: KnxAddress, value: seq<byte>, b: byte, only6Bits: bool)
    requires GroupInRange(a)
    ensures var front: seq<byte> := [0x11, 0x00, 0xAC, 0xD0, 0x00, 0x00, 8 * a.high + a.middle, a.low];
      && CemiBytes(GroupRead(a)) == front + [0x01, 0x00, 0x00]
      && CemiBytes(GroupWriteByte(a, b, only6Bits)) ==
           front + (if only6Bits && b < 64 then [0x01, 0x00, 0x80 + b] else [0x02, 0x00, 0x80, b])
      && CemiBytes(GroupWrite(a, value)) ==
           front + ([if value == [] then 0x01 else Cast8(|value| + 1), 0x00, 0x80] + value)
  {
    ReadBytes(a);
    WriteByteBytes(a, b, only6Bits);
    WriteRunBytes(a, value);
    hide CemiBytes, GroupRead, GroupWrite, GroupWriteByte, GroupInRange, Cast8;
  }

  lemma SixBits(a: DataApci, b: byte)
    requires a.data == [b]
    ensures Compact(a) <==> a.fits6Bits && b < 64
  {
  }
}
