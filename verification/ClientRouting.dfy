/** How a client connection finds the pending request that a confirmation
    belongs to: by a 32-bit key of the APCI type and the group address. */
module ClientRouting {
  import opened Bytes
  import opened Wrappers
  import opened ByteBuffers
  import opened KnxAddresses
  import opened Controls
  import opened Npdu
  import opened CemiFrames
  import AI = AdditionalInformation

  function InByte1(b: byte): bv32 {
    b as bv32 << 8
  }

  function InByte2(b: byte): bv32 {
    b as bv32 << 16
  }

  function InByte3(b: byte): bv32 {
    b as bv32 << 24
  }

  /** The type in the lowest byte, then the main, middle and sub group. */
  function MapKey(apciType: byte, a: KnxAddress): bv32 {
    apciType as bv32 | InByte1(a.high) | InByte2(a.middle) | InByte3(a.low)
  }

  /** A key of the map of pending requests. */
  datatype Key = Key(word: bv32)

  /** The key of a frame to a group. */
  function KeyOf(c: Cemi): Key {
    Key(MapKey(c.npdu.apci.apciType, c.destination.address))
  }

  method ToMapKey(c: Cemi, destination: KnxAddress) returns (key: bv32)
    ensures key == MapKey(c.npdu.apci.apciType, destination)
  {
    hide InByte1, InByte2, InByte3;
    key := c.npdu.apci.apciType as bv32;
    key := key | InByte1(destination.high);
    key := key | InByte2(destination.middle);
    key := key | InByte3(destination.low);
  }

  lemma KeyOctets(apciType: byte, a: KnxAddress)
    ensures var key := MapKey(apciType, a);
      && Octet0(key) == apciType && Octet1(key) == a.high
      && Octet2(key) == a.middle && Octet3(key) == a.low
  {
  }

  /** Two frames have the same key exactly when type and group address agree,
      for all byte values of the fields. */
  lemma KeysAgree(t: byte, a: KnxAddress, u: byte, b: KnxAddress)
    ensures MapKey(t, a) == MapKey(u, b) <==> t == u && a == b
  {
    hide MapKey, Octet0, Octet1, Octet2, Octet3;
    KeyOctets(t, a);
    KeyOctets(u, b);
  }

  /** What the gateway confirms: the request's own frame, with the confirmation
      code and the tunnel's address as its source. */
  function Echo(c: Cemi, own: KnxAddress): Cemi {
    c.(messageCode := L_DATA_CON, source := own)
  }

  lemma TypeKept(t: byte)
    ensures t & 0x07 == t <==> t < 8
  {
  }

  lemma EchoWritable(c: Cemi, own: KnxAddress)
    requires Writable(c)
    ensures Writable(Echo(c, own))
  {
  }

  /** The echo, written and parsed back, has the key of its request exactly when
      the type has three bits and the group address is in range. */
  lemma EchoKey(c: Cemi, own: KnxAddress, rest: seq<byte>)
    requires Writable(c) && c.destination.Group?
    ensures var p := ParseCemi(CemiBytes(Echo(c, own)) + rest);
      && p.Ok? && p.rest == rest
      && p.value.messageCode == L_DATA_CON
      && p.value.destination.Group?
      && (IndividualInRange(own) ==> p.value.source == own)
      && (KeyOf(p.value) == KeyOf(c) <==> c.npdu.apci.apciType < 8 && GroupInRange(c.destination.address))
  {
    hide ParseCemi, CemiBytes, Writable, MapKey, IndividualInRange, GroupInRange, IndividualNormal, GroupNormal,
      ControlNormal, Compact;
    var e := Echo(c, own);
    EchoWritable(c, own);
    CemiRoundTrip(e, rest);
    NormalAddresses(own);
    NormalAddresses(c.destination.address);
    TypeKept(c.npdu.apci.apciType);
    KeysAgree(CemiNormal(e).npdu.apci.apciType, CemiNormal(e).destination.address,
              c.npdu.apci.apciType, c.destination.address);
  }

  /** Among requests with valid type and address, the parsed echo of one has the
      key of another exactly when they are to the same group with the same type. */
  lemma EchoFindsItsRequest(c: Cemi, d: Cemi, own: KnxAddress, rest: seq<byte>)
    requires Writable(c) && c.destination.Group? && d.destination.Group?
    requires c.npdu.apci.apciType < 8 && GroupInRange(c.destination.address)
    ensures var p := ParseCemi(CemiBytes(Echo(c, own)) + rest);
      && p.Ok?
      && (KeyOf(p.value) == KeyOf(d) <==>
            c.npdu.apci.apciType == d.npdu.apci.apciType && c.destination == d.destination)
  {
    hide ParseCemi, CemiBytes, Writable, MapKey;
    EchoKey(c, own, rest);
    KeysAgree(c.npdu.apci.apciType, c.destination.address, d.npdu.apci.apciType, d.destination.address);
  }

  /** The frames of the client: low priority, hop count 5, from no address. */
  function GroupFrame(address: KnxAddress, apci: DataApci): Cemi {
    Cemi(L_DATA_REQ, [], Control(true, true, false, true, true, true, Low, 5), KnxAddress(0, 0, 0), Group(address),
         NpduFrame(Tcpi(false, false, 0), apci))
  }

  function GroupWrite(address: KnxAddress, value: seq<byte>): Cemi {
    GroupFrame(address, DataApci(GROUP_VALUE_WRITE, value, false))
  }

  function GroupWriteByte(address: KnxAddress, value: byte, only6Bits: bool): Cemi {
    GroupFrame(address, DataApci(GROUP_VALUE_WRITE, [value], only6Bits))
  }

  function GroupRead(address: KnxAddress): Cemi {
    GroupFrame(address, DataApci(GROUP_VALUE_READ, [], true))
  }

  /** Reads, and writes of at most 254 bytes, survive the wire; a read and a write
      to the same group have different keys. */
  lemma GroupFrames(address: KnxAddress, value: seq<byte>, b: byte, only6Bits: bool)
    ensures Writable(GroupWrite(address, value)) <==> |value| <= 254
    ensures Writable(GroupWriteByte(address, b, only6Bits)) && Writable(GroupRead(address))
    ensures KeyOf(GroupRead(address)) != KeyOf(GroupWrite(address, value))
    ensures KeyOf(GroupWriteByte(address, b, only6Bits)) == KeyOf(GroupWrite(address, value))
  {
    KeysAgree(GROUP_VALUE_READ, address, GROUP_VALUE_WRITE, address);
    hide MapKey;
    NoInfo();
  }

  lemma NoInfo()
    ensures AI.Sized([]) && AI.SelfDelimiting([])
  {
  }
}
