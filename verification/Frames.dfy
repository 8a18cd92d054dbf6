/** Frames of the serial protocol and their printer:
    header, length (little endian), class, command, data, CRC (little endian), tail. */
module Frames {
  import opened Octets
  import opened Options
  import opened Crc

  const HEADER: Byte := 0xAA
  const TAIL: Byte := 0x55
  const MAX_PAYLOAD: nat := 256
  const OVERHEAD: nat := 6

  datatype Message = Message(cls: Byte, cmd: Byte, data: seq<Byte>)

  // ---------------------------------------------------------------- little-endian fields

  function LengthLow(n: nat): Byte { n % 256 }

  function LengthHigh(n: nat): Byte
    requires n < 0x1_0000
  {
    n / 256
  }

  function Length(lo: Byte, hi: Byte): nat { lo + 256 * hi }

  function LowByte(c: bv16): Byte { Number(LowOctet(c)) }

  function HighByte(c: bv16): Byte { Number(HighOctet(c)) }

  function WithHigh(c: bv16, hi: Byte): bv16 { c | Top(Bits(hi)) }

  function Joined(lo: Byte, hi: Byte): bv16 { WithHigh(Bottom(Bits(lo)), hi) }

  lemma JoinOctets(c: bv16)
    ensures Bottom(LowOctet(c)) | Top(HighOctet(c)) == c
  {
  }

  lemma OctetsOfJoin(lo: Octet, hi: Octet)
    ensures LowOctet(Bottom(lo) | Top(hi)) == lo && HighOctet(Bottom(lo) | Top(hi)) == hi
  {
  }

  lemma JoinedRoundTrip(c: bv16)
    ensures Joined(LowByte(c), HighByte(c)) == c
  {
    BitsOfNumber(LowOctet(c));
    BitsOfNumber(HighOctet(c));
    JoinOctets(c);
  }

  lemma JoinedBytes(lo: Byte, hi: Byte)
    ensures LowByte(Joined(lo, hi)) == lo && HighByte(Joined(lo, hi)) == hi
  {
    OctetsOfJoin(Bits(lo), Bits(hi));
    NumberOfBits(lo);
    NumberOfBits(hi);
  }

  // ---------------------------------------------------------------- printer

  /** The part of a frame the CRC covers. */
  function Covered(m: Message): seq<Byte> { [m.cls, m.cmd] + m.data }

  predicate Printable(m: Message) { 2 + |m.data| < 0x1_0000 }

  function Preamble(n: nat): seq<Byte>
    requires n < 0x1_0000
  {
    [HEADER, LengthLow(n), LengthHigh(n)]
  }

  function Trailer(crc: bv16): seq<Byte> { [LowByte(crc), HighByte(crc), TAIL] }

  /** The bytes of a frame. */
  function Encode(m: Message): (bytes: seq<Byte>)
    requires Printable(m)
    ensures |bytes| == |m.data| + 8
  {
    Preamble(2 + |m.data|) + Covered(m) + Trailer(Of(Covered(m)))
  }

  /** The 16-bit length field of a frame with so many bytes of data. */
  function PayloadLength(dataLen: nat): (n: nat)
    ensures n < 0x1_0000
  {
    (2 + dataLen) % 0x1_0000
  }

  function Body(data: Option<seq<Byte>>): seq<Byte> { if data.Some? then data.value else [] }

  /** The bytes stored: the data, if there are any, between the opening bytes and the trailer, which carries the CRC
      of `covered`. */
  function Built(n: nat, cls: Byte, cmd: Byte, body: seq<Byte>, covered: seq<Byte>): seq<Byte>
    requires n < 0x1_0000
  {
    Preamble(n) + [cls, cmd] + body + Trailer(Of(covered))
  }

  /** Building a frame in the caller's buffer, which may be missing, as the data may. The CRC covers as many bytes of
      the buffer as the length field says, whether or not data were stored there. */
  method BuildFrame(table: array<bv16>, buf: array?<Byte>, bufSize: nat, cls: Byte, cmd: Byte,
                    data: Option<seq<Byte>>, dataLen: nat)
    returns (len: nat)
    requires IsTable(table) && dataLen < 0x1_0000 && (data.Some? ==> |data.value| == dataLen)
    requires buf != null ==> table as object != buf && bufSize <= buf.Length
    requires buf != null && PayloadLength(dataLen) + OVERHEAD <= bufSize ==> |Body(data)| + 8 <= buf.Length
    modifies if buf == null then {} else {buf}
    ensures buf == null || bufSize < PayloadLength(dataLen) + OVERHEAD ==>
              len == 0 && (buf != null ==> buf[..] == old(buf[..]))
    ensures buf != null && PayloadLength(dataLen) + OVERHEAD <= bufSize ==>
              var n, body := PayloadLength(dataLen), Body(data);
              && len == |body| + 8 && buf[len..] == old(buf[len..])
              && buf[..len] == Built(n, cls, cmd, body, ([cls, cmd] + body + old(buf[5 + |body|..]))[..n])
    ensures buf != null && dataLen + 8 <= bufSize && dataLen < 0xFFFE && (data.Some? || dataLen == 0) ==>
              len == dataLen + 8 && buf[..len] == Encode(Message(cls, cmd, Body(data)))
  {
    var n := PayloadLength(dataLen);
    var total := n + OVERHEAD;
    if buf == null || total > bufSize {
      return 0;
    }
    ghost var body := Body(data);
    ghost var covered := ([cls, cmd] + body + buf[5 + |body|..])[..n];
    len := StoreFrame(table, buf, n, cls, cmd, data);
    if dataLen < 0xFFFE && |body| == dataLen {
      BuiltIsEncoded(cls, cmd, body, covered);
    }
  }

  method StoreFrame(table: array<bv16>, buf: array<Byte>, n: nat, cls: Byte, cmd: Byte, data: Option<seq<Byte>>)
    returns (len: nat)
    requires IsTable(table) && table as object != buf && n < 0x1_0000
    requires 3 + n <= buf.Length && |Body(data)| + 8 <= buf.Length
    modifies buf
    ensures var body := Body(data);
            && len == |body| + 8 && buf[len..] == old(buf[len..])
            && buf[..len] == Built(n, cls, cmd, body, ([cls, cmd] + body + old(buf[5 + |body|..]))[..n])
  {
    var idx := WriteBody(buf, Preamble(n) + [cls, cmd], data);
    assert buf[..] == buf[..idx] + buf[idx..];
    CoveredSlice(buf[..], Preamble(n), [cls, cmd], Body(data), buf[idx..], n);
    var crc := Calc(table, buf[3..3 + n]);
    len := WriteTrailer(buf, idx, crc);
  }

  lemma CoveredSlice<T>(s: seq<T>, a: seq<T>, b: seq<T>, body: seq<T>, behind: seq<T>, n: nat)
    requires |a| == 3 && s == a + b + body + behind && 3 + n <= |s|
    ensures s[3..3 + n] == (b + body + behind)[..n]
  {
    assert s == a + (b + body + behind);
  }

  /** With all its data, and not too many, the bytes are those of the message. */
  lemma BuiltIsEncoded(cls: Byte, cmd: Byte, body: seq<Byte>, covered: seq<Byte>)
    requires |body| < 0xFFFE && covered == [cls, cmd] + body
    ensures Built(2 + |body|, cls, cmd, body, covered) == Encode(Message(cls, cmd, body))
  {
  }

  /** The opening bytes and the data, if there are any. */
  method WriteBody(buf: array<Byte>, head: seq<Byte>, data: Option<seq<Byte>>) returns (idx: nat)
    requires |head| == 5 && 5 + |Body(data)| <= buf.Length
    modifies buf
    ensures idx == 5 + |Body(data)| && buf[..idx] == head + Body(data) && buf[idx..] == old(buf[idx..])
  {
    WriteHead(buf, head);
    idx := 5;
    if data.Some? && |data.value| > 0 {
      CopyInto(buf, 5, data.value);
      idx := idx + |data.value|;
      assert buf[..idx] == buf[..5] + buf[5..idx];
    }
  }

  /** The five single-byte stores that open a frame. */
  method WriteHead(buf: array<Byte>, head: seq<Byte>)
    requires |head| == 5 <= buf.Length
    modifies buf
    ensures buf[..5] == head && buf[5..] == old(buf[5..])
  {
    buf[0] := head[0];
    buf[1] := head[1];
    buf[2] := head[2];
    buf[3] := head[3];
    buf[4] := head[4];
  }

  method WriteTrailer(buf: array<Byte>, start: nat, crc: bv16) returns (len: nat)
    requires start + 3 <= buf.Length
    modifies buf
    ensures len == start + 3
    ensures buf[..len] == old(buf[..start]) + Trailer(crc)
    ensures buf[len..] == old(buf[len..])
  {
    var idx := start;
    buf[idx] := LowByte(crc);
    idx := idx + 1;
    buf[idx] := HighByte(crc);
    idx := idx + 1;
    buf[idx] := TAIL;
    len := idx + 1;
    assert buf[..len] == buf[..start] + [buf[start], buf[start + 1], buf[start + 2]];
  }

  method CopyInto(buf: array<Byte>, start: nat, data: seq<Byte>)
    requires start + |data| <= buf.Length
    modifies buf
    ensures buf[..start] == old(buf[..start])
    ensures buf[start..start + |data|] == data
    ensures buf[start + |data|..] == old(buf[start + |data|..])
  {
    for i := 0 to |data|
      invariant buf[..start] == old(buf[..start])
      invariant buf[start..start + i] == data[..i]
      invariant buf[start + |data|..] == old(buf[start + |data|..])
    {
      buf[start + i] := data[i];
    }
  }

  // ---------------------------------------------------------------- the layout

  /** Sixteen bits from two octets, the low one first. */
  function Pair(lo: Octet, hi: Octet): bv16 { (lo as bv16) | ((hi as bv16) << 8) }

  predicate InBytes(lo: Byte, hi: Byte, crc: bv16) { Pair(Bits(lo), Bits(hi)) == crc }

  lemma OctetsOfPair(lo: Octet, hi: Octet)
    ensures LowOctet(Pair(lo, hi)) == lo && HighOctet(Pair(lo, hi)) == hi
  {
  }

  lemma PairOfOctets(c: bv16)
    ensures Pair(LowOctet(c), HighOctet(c)) == c
  {
  }

  lemma InBytesIff(lo: Byte, hi: Byte, crc: bv16)
    ensures InBytes(lo, hi, crc) <==> lo == LowByte(crc) && hi == HighByte(crc)
  {
    OctetsOfPair(Bits(lo), Bits(hi));
    PairOfOctets(crc);
    NumberOfBits(lo);
    NumberOfBits(hi);
    BitsOfNumber(LowOctet(crc));
    BitsOfNumber(HighOctet(crc));
  }

  /** Byte for byte: 0xAA, the length of class, command and data with the low byte first, class, command, data, the CRC
      of those three, 0x55. */
  predicate IsFrame(bytes: seq<Byte>, m: Message) {
    var n := |m.data|;
    && |bytes| == n + 8 && bytes[0] == 0xAA && (bytes[1] as int) + 256 * (bytes[2] as int) == 2 + n
    && bytes[3] == m.cls && bytes[4] == m.cmd && bytes[5..5 + n] == m.data
    && InBytes(bytes[5 + n], bytes[6 + n], Of(bytes[3..5 + n])) && bytes[7 + n] == 0x55
  }

  lemma EncodeParts(m: Message)
    requires Printable(m)
    ensures var bytes, n, crc := Encode(m), |m.data|, Of(Covered(m));
            && bytes[0] == 0xAA && bytes[1] == (2 + n) % 256 && bytes[2] == (2 + n) / 256
            && bytes[3] == m.cls && bytes[4] == m.cmd && bytes[5..5 + n] == m.data && bytes[3..5 + n] == Covered(m)
            && bytes[5 + n] == LowByte(crc) && bytes[6 + n] == HighByte(crc) && bytes[7 + n] == 0x55
  {
  }

  lemma SpelledOut(bytes: seq<Byte>, n: nat)
    requires |bytes| == n + 8
    ensures bytes == [bytes[0], bytes[1], bytes[2]] + bytes[3..5 + n] + [bytes[5 + n], bytes[6 + n], bytes[7 + n]]
    ensures bytes[3..5 + n] == [bytes[3], bytes[4]] + bytes[5..5 + n]
  {
  }

  lemma SameParts(a: seq<Byte>, b: seq<Byte>, n: nat)
    requires |a| == |b| == n + 8 && a[0] == b[0] && a[1] == b[1] && a[2] == b[2] && a[3..5 + n] == b[3..5 + n]
    requires a[5 + n] == b[5 + n] && a[6 + n] == b[6 + n] && a[7 + n] == b[7 + n]
    ensures a == b
  {
    SpelledOut(a, n);
    SpelledOut(b, n);
  }

  lemma LengthFieldIff(lo: Byte, hi: Byte, n: nat)
    ensures (lo as int) + 256 * (hi as int) == n <==> n < 0x1_0000 && lo == n % 256 && hi == n / 256
  {
  }

  /** The printed frame of a message is the one string of that layout. */
  lemma EncodeIff(m: Message, bytes: seq<Byte>)
    requires Printable(m)
    ensures bytes == Encode(m) <==> IsFrame(bytes, m)
  {
    var n := |m.data|;
    EncodeParts(m);
    if |bytes| == n + 8 {
      InBytesIff(bytes[5 + n], bytes[6 + n], Of(bytes[3..5 + n]));
      LengthFieldIff(bytes[1], bytes[2], 2 + n);
      SpelledOut(bytes, n);
      if IsFrame(bytes, m) {
        SameParts(bytes, Encode(m), n);
      }
    }
  }

  // ---------------------------------------------------------------- the bytes determine the message

  /** The bytes of a frame determine the message: printing loses nothing. */
  lemma EncodeSeparates(a: Message, b: Message)
    requires Printable(a) && Printable(b) && Encode(a) == Encode(b)
    ensures a == b
  {
    var n := |Encode(a)|;
    assert Covered(a) == Encode(a)[3..n - 3];
    assert Covered(b) == Encode(b)[3..n - 3];
    assert a.cls == Covered(a)[0] && a.cmd == Covered(a)[1];
    assert b.cls == Covered(b)[0] && b.cmd == Covered(b)[1];
    assert a.data == Covered(a)[2..] && b.data == Covered(b)[2..];
  }
}
