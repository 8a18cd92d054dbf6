/** The 16-bit CRC of the serial protocol: generator x^16 + x^12 + x^5 + 1, initial
    value zero, computed byte by byte through a table. */
module Crc {
  import opened Iteration
  import opened Octets

  // ---------------------------------------------------------------- shift register

  /** One step of the bitwise shift register. */
  function Shift(c: bv16): bv16 {
    if c & 0x8000 != 0 then (c << 1) ^ 0x1021 else c << 1
  }

  function Xor(a: bv16, b: bv16): bv16 { a ^ b }

  /** The octet, as the register sees it arrive: in the top eight bits. */
  function Top(o: Octet): bv16 { (o as bv16) << 8 }

  function Bottom(o: Octet): bv16 { o as bv16 }

  function Low(c: bv16): bv16 { c & 0xff }

  // ---------------------------------------------------------------- table

  /** The table entry of an octet. */
  function Entry(o: Octet): bv16 { Iterate(Shift, Top(o), 8) }

  function HighOctet(c: bv16): Octet { ((c >> 8) & 0xff) as Octet }

  function LowOctet(c: bv16): Octet { (c & 0xff) as Octet }

  function Mix(crc: bv16, i: Octet): bv16 { Xor(crc << 8, Entry(i)) }

  function Fold(crc: bv16, o: Octet): bv16 { Mix(crc, HighOctet(crc) ^ o) }

  /** Fold one byte into the running CRC, as the code does. */
  function Update(crc: bv16, byte: Byte): bv16 { Fold(crc, Bits(byte)) }

  /** The CRC of a byte string, continued from `crc`. */
  function OfFrom(crc: bv16, data: seq<Byte>): bv16
    decreases |data|
  {
    if data == [] then crc else OfFrom(Update(crc, data[0]), data[1..])
  }

  function Of(data: seq<Byte>): bv16 { OfFrom(0, data) }

  ghost predicate IsTable(table: array<bv16>)
    reads table
  {
    table.Length == 256 && forall i :: 0 <= i < 256 ==> table[i] == Entry(Bits(i))
  }

  /** Building the table, entry by entry and bit by bit. */
  method BuildTable() returns (table: array<bv16>)
    ensures fresh(table) && IsTable(table)
  {
    table := new bv16[256];
    for i := 0 to 256
      invariant forall k :: 0 <= k < i ==> table[k] == Entry(Bits(k))
    {
      table[i] := ShiftOut(Top(Bits(i)));
    }
  }

  method ShiftOut(start: bv16) returns (crc: bv16)
    ensures crc == Iterate(Shift, start, 8)
  {
    crc := start;
    for j := 0 to 8
      invariant crc == Iterate(Shift, start, j)
    {
      crc := Shift(crc);
    }
  }

  /** `Crc16Update` through the table. */
  method TableUpdate(table: array<bv16>, crc: bv16, byte: Byte) returns (r: bv16)
    requires IsTable(table)
    ensures r == Update(crc, byte)
  {
    r := LookUp(table, crc, HighOctet(crc) ^ Bits(byte));
  }

  method LookUp(table: array<bv16>, crc: bv16, i: Octet) returns (r: bv16)
    requires IsTable(table)
    ensures r == Mix(crc, i)
  {
    var entry := ReadEntry(table, i);
    r := Xor(crc << 8, entry);
  }

  method ReadEntry(table: array<bv16>, i: Octet) returns (entry: bv16)
    requires IsTable(table)
    ensures entry == Entry(i)
  {
    BitsOfNumber(i);
    entry := table[Number(i)];
  }

  /** `CalcCrc16` over a stretch of bytes. */
  method Calc(table: array<bv16>, data: seq<Byte>) returns (crc: bv16)
    requires IsTable(table)
    ensures crc == Of(data)
  {
    crc := 0;
    for i := 0 to |data|
      invariant OfFrom(crc, data[i..]) == Of(data)
    {
      assert data[i..][1..] == data[i + 1..];
      crc := TableUpdate(table, crc, data[i]);
    }
  }

  // ---------------------------------------------------------------- the register is linear

  lemma TopBitOfXor(a: bv16, b: bv16)
    ensures (a ^ b) & 0x8000 == (a & 0x8000) ^ (b & 0x8000)
    ensures a & 0x8000 == 0 || a & 0x8000 == 0x8000
  {
  }

  lemma ShiftOfXor(a: bv16, b: bv16)
    ensures (a ^ b) << 1 == (a << 1) ^ (b << 1)
  {
  }

  lemma XorThree(x: bv16, y: bv16, p: bv16)
    ensures (x ^ p) ^ (y ^ p) == x ^ y
    ensures (x ^ p) ^ y == (x ^ y) ^ p == x ^ (y ^ p)
  {
  }

  lemma XorIsZero(a: bv16, b: bv16)
    ensures a ^ b == 0 <==> a == b
  {
  }

  lemma ShiftAdds(a: bv16, b: bv16)
    ensures Shift(a ^ b) == Shift(a) ^ Shift(b)
  {
    TopBitOfXor(a, b);
    TopBitOfXor(b, a);
    ShiftOfXor(a, b);
    XorThree(a << 1, b << 1, 0x1021);
  }

  lemma FeedbackIsOdd(a: bv16)
    ensures (a << 1) ^ 0x1021 != 0
  {
  }

  lemma DoubleIsZero(a: bv16)
    ensures a << 1 == 0 && a & 0x8000 == 0 ==> a == 0
  {
  }

  lemma ShiftVanishesAtZero(a: bv16)
    ensures Shift(a) == 0 ==> a == 0
  {
    TopBitOfXor(a, a);
    FeedbackIsOdd(a);
    DoubleIsZero(a);
  }

  lemma ShiftSeparates(a: bv16, b: bv16)
    ensures Shift(a) == Shift(b) ==> a == b
  {
    ShiftAdds(a, b);
    XorIsZero(a, b);
    XorIsZero(Shift(a), Shift(b));
    ShiftVanishesAtZero(a ^ b);
  }

  /** Running the register is linear, for any number of steps, */
  lemma RegisterIsLinear(a: bv16, b: bv16, n: nat)
    ensures Iterate(Shift, Xor(a, b), n) == Xor(Iterate(Shift, a, n), Iterate(Shift, b, n))
  {
    forall x, y ensures Shift(Xor(x, y)) == Xor(Shift(x), Shift(y)) {
      ShiftAdds(x, y);
    }
    IterateIsAdditive(Shift, Xor, a, b, n);
  }

  /** and loses nothing. */
  lemma RegisterIsInjective(a: bv16, b: bv16, n: nat)
    requires Iterate(Shift, a, n) == Iterate(Shift, b, n)
    ensures a == b
  {
    forall x, y ensures Shift(x) == Shift(y) ==> x == y {
      ShiftSeparates(x, y);
    }
    IterateIsInjective(Shift, a, b, n);
  }

  // ---------------------------------------------------------------- table update == bitwise update

  lemma LowByteShifts(c: bv16)
    ensures Shift(c & 0xff) == (c & 0xff) << 1
    ensures Shift((c & 0xff) << 1) == (c & 0xff) << 2
    ensures Shift((c & 0xff) << 2) == (c & 0xff) << 3
    ensures Shift((c & 0xff) << 3) == (c & 0xff) << 4
    ensures Shift((c & 0xff) << 4) == (c & 0xff) << 5
    ensures Shift((c & 0xff) << 5) == (c & 0xff) << 6
    ensures Shift((c & 0xff) << 6) == (c & 0xff) << 7
    ensures Shift((c & 0xff) << 7) == (c & 0xff) << 8 == c << 8
  {
  }

  /** Eight steps carry the low byte to the top unchanged: no feedback yet. */
  lemma LowByteMovesUp(c: bv16)
    ensures Iterate(Shift, Low(c), 8) == c << 8
  {
    LowByteShifts(c);
  }

  lemma SplitOctets(crc: bv16, o: Octet)
    ensures Xor(crc, Top(o)) == Xor(Top(HighOctet(crc) ^ o), Low(crc))
  {
    var i := HighOctet(crc) ^ o;
    SplitBits(crc, o, i);
    assert Xor(Top(i), Low(crc)) == Top(i) ^ Low(crc);
    assert Xor(crc, Top(o)) == crc ^ Top(o);
  }

  lemma SplitBits(crc: bv16, o: Octet, i: Octet)
    requires i == HighOctet(crc) ^ o
    ensures crc ^ Top(o) == Top(i) ^ Low(crc)
  {
  }

  lemma XorCommutes(a: bv16, b: bv16)
    ensures Xor(a, b) == Xor(b, a)
  {
  }

  lemma MixIsShifts(crc: bv16, i: Octet)
    ensures Mix(crc, i) == Xor(Iterate(Shift, Top(i), 8), Iterate(Shift, Low(crc), 8))
  {
    LowByteMovesUp(crc);
    XorCommutes(crc << 8, Entry(i));
  }

  lemma FoldIsEightShifts(crc: bv16, o: Octet)
    ensures Fold(crc, o) == Iterate(Shift, Xor(crc, Top(o)), 8)
  {
    var i := HighOctet(crc) ^ o;
    MixIsShifts(crc, i);
    RegisterIsLinear(Top(i), Low(crc), 8);
    SplitOctets(crc, o);
  }

  /** The table does in one look-up what the shift register does in eight steps. */
  lemma UpdateIsEightShifts(crc: bv16, byte: Byte)
    ensures Update(crc, byte) == Iterate(Shift, Xor(crc, Top(Bits(byte))), 8)
  {
    FoldIsEightShifts(crc, Bits(byte));
  }
}
