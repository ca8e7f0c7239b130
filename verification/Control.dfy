/** The two control bytes of a cEMI frame. */
module Controls {
  import opened Bytes
  import opened Wrappers
  import opened ByteBuffers

  datatype Priority = System | Normal | Urgent | Low

  datatype Control = Control(
    standardFrameType: bool,
    repeatOnError: bool,
    systemBroadcast: bool,
    acknowledgeWanted: bool,
    confirmationOnError: bool,
    destinationIsGroup: bool,
    priority: Priority,
    hopCount: byte)

  function PriorityCode(p: Priority): byte {
    match p
    case System => 0
    case Normal => 1
    case Urgent => 2
    case Low => 3
  }

  function PriorityOf(code: byte): Priority {
    if code == 0 then System else if code == 1 then Normal else if code == 2 then Urgent else Low
  }

  function Bit(flag: bool, weight: byte): byte {
    if flag then weight else 0
  }

  function ControlByte1(c: Control): byte {
    Bit(c.standardFrameType, 0x80) | Bit(c.repeatOnError, 0x20) | Bit(c.systemBroadcast, 0x10)
    | (PriorityCode(c.priority) << 2) | Bit(!c.acknowledgeWanted, 0x02) | Bit(!c.confirmationOnError, 0x01)
  }

  function ControlByte2(c: Control): byte {
    Bit(c.destinationIsGroup, 0x80) | (c.hopCount << 4)
  }

  function ControlBytes(c: Control): seq<byte> {
    [ControlByte1(c), ControlByte2(c)]
  }

  function ControlOf(byte1: byte, byte2: byte): Control {
    Control(byte1 & 0x80 != 0, byte1 & 0x20 != 0, byte1 & 0x10 != 0, byte1 & 0x02 == 0, byte1 & 0x01 == 0,
            byte2 & 0x80 != 0, PriorityOf((byte1 >> 2) & 0x03), (byte2 >> 4) & 0x07)
  }

  function ParseControl(bs: seq<byte>): Parsed<Control> {
    if |bs| < 2 then Fail(OutOfBounds) else Ok(ControlOf(bs[0], bs[1]), bs[2..])
  }

  /** Bit 3 of a hop count that is too large runs into the group flag. */
  function ControlNormal(c: Control): Control {
    c.(destinationIsGroup := c.destinationIsGroup || c.hopCount & 0x08 != 0, hopCount := c.hopCount & 0x07)
  }

  lemma ControlRoundTrip(c: Control, rest: seq<byte>)
    ensures ParseControl(ControlBytes(c) + rest) == Ok(ControlNormal(c), rest)
    ensures ControlNormal(c) == c <==> c.hopCount < 8
    ensures ControlBytes(ControlNormal(c)) == ControlBytes(c)
  {
    assert (ControlBytes(c) + rest)[2..] == rest;
    Byte1Fields(c);
    Byte2Fields(c);
    hide ControlByte1, ControlByte2;
  }

  lemma Byte1Fields(c: Control)
    ensures var b := ControlByte1(c);
      && (b & 0x80 != 0) == c.standardFrameType && (b & 0x20 != 0) == c.repeatOnError
      && (b & 0x10 != 0) == c.systemBroadcast && PriorityOf((b >> 2) & 0x03) == c.priority
      && (b & 0x02 == 0) == c.acknowledgeWanted && (b & 0x01 == 0) == c.confirmationOnError
    ensures ControlByte1(ControlNormal(c)) == ControlByte1(c)
  {
  }

  lemma Byte2Fields(c: Control)
    ensures var b := ControlByte2(c);
      && (b & 0x80 != 0) == ControlNormal(c).destinationIsGroup
      && (b >> 4) & 0x07 == ControlNormal(c).hopCount
    ensures ControlByte2(ControlNormal(c)) == ControlByte2(c)
    ensures ControlNormal(c) == c <==> c.hopCount < 8
  {
  }

  /** Writing parsed control bytes clears bit 6 of the first and the low nibble
      of the second, and nothing else. */
  lemma ControlMask(byte1: byte, byte2: byte)
    ensures ControlBytes(ControlOf(byte1, byte2)) == [byte1 & 0xBF, byte2 & 0xF0]
    ensures ControlNormal(ControlOf(byte1, byte2)) == ControlOf(byte1, byte2)
  {
  }

  /** Bits are counted from one, as the library counts them. */
  predicate IsBitSet(b: byte, pos: nat)
    requires 1 <= pos <= 8
  {
    b & (1 << (pos - 1)) != 0
  }

  function SetBit(b: byte, pos: nat, value: bool): byte
    requires 1 <= pos <= 8
  {
    if value then b | (1 << (pos - 1)) else b
  }

  const STANDARD_FRAME_TYPE_BIT_POS := 8
  const REPEAT_ON_ERROR_POS := 6
  const SYSTEM_BROADCAST_POS := 5
  const ACKNOWLEDGE_WANTED_POS := 2
  const CONFIRMATION_ON_ERROR_POS := 1
  const IS_GROUP_ADDRESS_POS := 8

  method ReadControl(reader: ByteBufferReader) returns (c: Control)
    requires reader.Valid() && ParseControl(reader.Rest()).Ok?
    modifies reader
    ensures reader.Valid()
    ensures ParseControl(old(reader.Rest())) == Ok(c, reader.Rest())
  {
    var byte1 := reader.ReadUint8();
    var byte2 := reader.ReadUint8();
    assert old(reader.Rest())[2..] == reader.Rest();
    var isGroup := IsBitSet(byte2, IS_GROUP_ADDRESS_POS);
    var hopCount := (byte2 >> 4) & 0x07;
    var prio := PriorityOf((byte1 >> 2) & 0x03);
    c := Control(true, true, false, true, true, isGroup, prio, hopCount);
    c := c.(standardFrameType := IsBitSet(byte1, STANDARD_FRAME_TYPE_BIT_POS));
    c := c.(repeatOnError := IsBitSet(byte1, REPEAT_ON_ERROR_POS));
    c := c.(systemBroadcast := IsBitSet(byte1, SYSTEM_BROADCAST_POS));
    c := c.(acknowledgeWanted := !IsBitSet(byte1, ACKNOWLEDGE_WANTED_POS));
    c := c.(confirmationOnError := !IsBitSet(byte1, CONFIRMATION_ON_ERROR_POS));
  }

  method WriteControl(c: Control, writer: ByteBufferWriter)
    modifies writer
    ensures writer.data == old(writer.data) + ControlBytes(c)
  {
    var byte1: byte := 0;
    var byte2: byte := 0;
    byte1 := byte1 | (PriorityCode(c.priority) << 2);
    byte1 := SetBit(byte1, CONFIRMATION_ON_ERROR_POS, !c.confirmationOnError);
    byte1 := SetBit(byte1, ACKNOWLEDGE_WANTED_POS, !c.acknowledgeWanted);
    byte1 := SetBit(byte1, SYSTEM_BROADCAST_POS, c.systemBroadcast);
    byte1 := SetBit(byte1, REPEAT_ON_ERROR_POS, c.repeatOnError);
    byte1 := SetBit(byte1, STANDARD_FRAME_TYPE_BIT_POS, c.standardFrameType);
    byte2 := SetBit(byte2, IS_GROUP_ADDRESS_POS, c.destinationIsGroup);
    byte2 := byte2 | (c.hopCount << 4);
    writer.WriteUint8(byte1);
    writer.WriteUint8(byte2);
  }
}
