/** The frames of the upgrade protocol: packed little-endian payloads, as the host and the
    device write and read them. */
module OtaWire {
  import opened Octets
  import opened Frames

  const OTA_CLASS: Byte := 0x04
  const START: Byte := 0x01
  const DATA: Byte := 0x02
  const END: Byte := 0x03
  const VERIFY: Byte := 0x04
  const ACK_FLAG: Byte := 0x80

  const SUCCESS: Byte := 0x00
  const UNKNOWN: Byte := 0x01
  const PARAM_ERR: Byte := 0x02
  const CRC_ERR: Byte := 0x03

  const START_SIZE := 10
  const DATA_HEADER := 6
  const ACK_SIZE := 7
  const VERIFY_SIZE := 5

  // ---------------------------------------------------------------- numbers

  type Word32 = n: int | 0 <= n < 0x1_0000_0000
  type Word16 = n: int | 0 <= n < 0x1_0000

  function Bytes16(n: Word16): seq<Byte> { [n % 256, n / 256] }

  function Bytes32(n: Word32): seq<Byte> { Bytes16(n % 0x1_0000) + Bytes16(n / 0x1_0000) }

  function BytesCrc(c: bv16): seq<Byte> { [LowByte(c), HighByte(c)] }

  function Read16(data: seq<Byte>, at: nat): Word16
    requires at + 2 <= |data|
  {
    Length(data[at], data[at + 1])
  }

  function Read32(data: seq<Byte>, at: nat): Word32
    requires at + 4 <= |data|
  {
    Read16(data, at) + 0x1_0000 * Read16(data, at + 2)
  }

  function ReadCrc(data: seq<Byte>, at: nat): bv16
    requires at + 2 <= |data|
  {
    Joined(data[at], data[at + 1])
  }

  lemma Read16Back(front: seq<Byte>, n: Word16, rest: seq<Byte>)
    ensures Read16(front + Bytes16(n) + rest, |front|) == n
  {
  }

  lemma Read32Back(front: seq<Byte>, n: Word32, rest: seq<Byte>)
    ensures Read32(front + Bytes32(n) + rest, |front|) == n
  {
    var lo, hi := Bytes16(n % 0x1_0000), Bytes16(n / 0x1_0000);
    assert front + Bytes32(n) + rest == front + lo + (hi + rest) == (front + lo) + hi + rest;
    Read16Back(front, n % 0x1_0000, hi + rest);
    Read16Back(front + lo, n / 0x1_0000, rest);
  }

  // ---------------------------------------------------------------- requests

  function StartFrame(total: Word32, start: Word32, crc: bv16): (m: Message)
    ensures |m.data| == START_SIZE
  {
    Message(OTA_CLASS, START, Bytes32(total) + Bytes32(start) + BytesCrc(crc))
  }

  function DataFrame(offset: Word32, chunk: seq<Byte>): (m: Message)
    requires |chunk| < 0x1_0000
    ensures |m.data| == DATA_HEADER + |chunk|
  {
    Message(OTA_CLASS, DATA, Bytes32(offset) + Bytes16(|chunk|) + chunk)
  }

  function EndFrame(): Message { Message(OTA_CLASS, END, []) }

  function VerifyFrame(): Message { Message(OTA_CLASS, VERIFY, []) }

  /** The device reads back what the host put into a START request, */
  lemma StartRoundTrip(total: Word32, start: Word32, crc: bv16)
    ensures var d := StartFrame(total, start, crc).data;
            Read32(d, 0) == total && Read32(d, 4) == start && ReadCrc(d, 8) == crc
  {
    var d := StartFrame(total, start, crc).data;
    assert d == [] + Bytes32(total) + (Bytes32(start) + BytesCrc(crc));
    Read32Back([], total, Bytes32(start) + BytesCrc(crc));
    Read32Back(Bytes32(total), start, BytesCrc(crc));
    JoinedRoundTrip(crc);
  }

  /** and into a DATA request. */
  lemma DataRoundTrip(offset: Word32, chunk: seq<Byte>)
    requires |chunk| < 0x1_0000
    ensures var d := DataFrame(offset, chunk).data;
            Read32(d, 0) == offset && Read16(d, 4) == |chunk| && d[DATA_HEADER..] == chunk
  {
    var d := DataFrame(offset, chunk).data;
    assert d == [] + Bytes32(offset) + (Bytes16(|chunk|) + chunk);
    Read32Back([], offset, Bytes16(|chunk|) + chunk);
    Read16Back(Bytes32(offset), |chunk|, chunk);
  }

  // ---------------------------------------------------------------- replies

  function Replying(cmd: Byte): Byte
    requires cmd < ACK_FLAG
  {
    cmd + ACK_FLAG
  }

  function AckFrame(cmd: Byte, status: Byte, received: Word32): (m: Message)
    requires cmd < ACK_FLAG
    ensures |m.data| == ACK_SIZE
  {
    Message(OTA_CLASS, Replying(cmd), [OTA_CLASS, Replying(cmd), status] + Bytes32(received))
  }

  function VerifyReply(status: Byte, crc: bv16): (m: Message)
    ensures |m.data| == VERIFY_SIZE
  {
    Message(OTA_CLASS, Replying(VERIFY), [OTA_CLASS, Replying(VERIFY), status] + BytesCrc(crc))
  }

  /** The host reads back what the device put into an acknowledgement, */
  lemma AckRoundTrip(cmd: Byte, status: Byte, received: Word32)
    requires cmd < ACK_FLAG
    ensures var d := AckFrame(cmd, status, received).data;
            d[2] == status && Read32(d, 3) == received
  {
    var front := [OTA_CLASS, Replying(cmd), status];
    assert front + Bytes32(received) == front + Bytes32(received) + [];
    Read32Back(front, received, []);
  }

  /** and into a verify reply. */
  lemma VerifyRoundTrip(status: Byte, crc: bv16)
    ensures var d := VerifyReply(status, crc).data;
            d[2] == status && ReadCrc(d, 3) == crc
  {
    JoinedRoundTrip(crc);
  }

  // ---------------------------------------------------------------- the layout

  /** Four bytes of a 32-bit number, the lowest first. */
  predicate At32(data: seq<Byte>, at: nat, n: int) {
    at + 4 <= |data|
    && (data[at] as int) + 0x100 * (data[at + 1] as int) + 0x1_0000 * (data[at + 2] as int)
       + 0x100_0000 * (data[at + 3] as int) == n
  }

  lemma Bytes32At(front: seq<Byte>, n: Word32, rest: seq<Byte>)
    ensures At32(front + Bytes32(n) + rest, |front|, n)
  {
    var lo, hi := n % 0x1_0000, n / 0x1_0000;
    assert lo % 256 + 256 * (lo / 256) == lo && hi % 256 + 256 * (hi / 256) == hi;
  }

  lemma BytesCrcAre(c: bv16)
    ensures InBytes(BytesCrc(c)[0], BytesCrc(c)[1], c)
  {
    InBytesIff(LowByte(c), HighByte(c), c);
  }

  /** The requests byte for byte: class 4, commands 1 to 4; START carries size, address and CRC, DATA offset, length
      and chunk. */
  lemma RequestLayout(total: Word32, start: Word32, crc: bv16, offset: Word32, chunk: seq<Byte>)
    requires |chunk| < 0x1_0000
    ensures var m := StartFrame(total, start, crc);
            && m.cls == 4 && m.cmd == 1 && |m.data| == 10
            && At32(m.data, 0, total) && At32(m.data, 4, start) && InBytes(m.data[8], m.data[9], crc)
    ensures var m := DataFrame(offset, chunk);
            && m.cls == 4 && m.cmd == 2 && |m.data| == 6 + |chunk| && At32(m.data, 0, offset)
            && (m.data[4] as int) + 256 * (m.data[5] as int) == |chunk| && m.data[6..] == chunk
    ensures EndFrame() == Message(4, 3, []) && VerifyFrame() == Message(4, 4, [])
  {
    var s, d := StartFrame(total, start, crc).data, DataFrame(offset, chunk).data;
    assert s == [] + Bytes32(total) + (Bytes32(start) + BytesCrc(crc));
    Bytes32At([], total, Bytes32(start) + BytesCrc(crc));
    Bytes32At(Bytes32(total), start, BytesCrc(crc));
    BytesCrcAre(crc);
    assert d == [] + Bytes32(offset) + (Bytes16(|chunk|) + chunk);
    Bytes32At([], offset, Bytes16(|chunk|) + chunk);
  }

  /** The replies: the command with its top bit set; class, command, status, and the size or the CRC. */
  lemma ReplyLayout(cmd: Byte, status: Byte, received: Word32, crc: bv16)
    requires cmd < 0x80
    ensures var m := AckFrame(cmd, status, received);
            && m.cls == 4 && m.cmd == cmd + 0x80 && |m.data| == 7
            && m.data[..3] == [4, cmd + 0x80, status] && At32(m.data, 3, received)
    ensures var m := VerifyReply(status, crc);
            && m.cls == 4 && m.cmd == 0x84 && |m.data| == 5
            && m.data[..3] == [4, 0x84, status] && InBytes(m.data[3], m.data[4], crc)
  {
    var front := [OTA_CLASS, Replying(cmd), status];
    assert front + Bytes32(received) == front + Bytes32(received) + [];
    Bytes32At(front, received, []);
    BytesCrcAre(crc);
  }
}
