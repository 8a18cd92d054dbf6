/** What the CRC of the serial protocol detects: any change of one byte, and any change
    confined to two neighbouring bytes, in a string of any length. */
module CrcDetection {
  import opened Iteration
  import opened Octets
  import opened Crc

  lemma XorCancels(a: bv16, b: bv16, x: bv16)
    ensures Xor(a, x) == Xor(b, x) ==> a == b
    ensures Xor(x, a) == Xor(x, b) ==> a == b
  {
    XorBack(a, x);
    XorBack(b, x);
  }

  lemma XorBack(a: bv16, x: bv16)
    ensures Xor(Xor(a, x), x) == a && Xor(Xor(x, a), x) == a
  {
  }

  lemma TopSeparates(a: Octet, b: Octet)
    ensures Top(a) == Top(b) ==> a == b
  {
  }

  lemma BitsSeparate(a: Byte, b: Byte)
    ensures Bits(a) == Bits(b) ==> a == b
  {
    NumberOfBits(a);
    NumberOfBits(b);
  }

  // ---------------------------------------------------------------- what the CRC starts and ends with

  lemma ZeroEntry()
    ensures Entry(0) == 0
  {
    assert Shift(0) == 0;
    IterateFixed(Shift, 0, 8);
  }

  /** Zero bytes in front are not noticed: the CRC starts from zero. */
  lemma LeadingZeros(data: seq<Byte>)
    ensures Of([0] + data) == Of(data)
  {
    ZeroEntry();
    assert Update(0, 0) == 0;
    assert ([0] + data)[1..] == data;
  }

  lemma OwnOctets(c: bv16)
    ensures HighOctet(c) ^ HighOctet(c) == 0 && HighOctet(c << 8) ^ LowOctet(c) == 0
  {
  }

  lemma ShiftedOut(c: bv16)
    ensures Xor(c << 8, 0) == c << 8 && Xor((c << 8) << 8, 0) == 0
  {
  }

  /** Folding the CRC's own octets into it shifts it out. */
  lemma FoldOwn(c: bv16)
    ensures Fold(Fold(c, HighOctet(c)), LowOctet(c)) == 0
  {
    ZeroEntry();
    OwnOctets(c);
    ShiftedOut(c);
  }

  /** A string with its own CRC behind it, high byte first, has the CRC zero. */
  lemma ResidueIsZero(data: seq<Byte>)
    ensures var c := Of(data); Of(data + [Number(HighOctet(c)), Number(LowOctet(c))]) == 0
  {
    var c := Of(data);
    var hi, lo := Number(HighOctet(c)), Number(LowOctet(c));
    OfJoin(0, data, [hi, lo]);
    OfTwo(c, hi, lo);
    BitsOfNumber(HighOctet(c));
    BitsOfNumber(LowOctet(c));
    FoldOwn(c);
  }

  // ---------------------------------------------------------------- single bytes and pairs

  lemma FoldKeepsCrcApart(c: bv16, d: bv16, o: Octet)
    ensures Fold(c, o) == Fold(d, o) ==> c == d
  {
    FoldIsEightShifts(c, o);
    FoldIsEightShifts(d, o);
    if Fold(c, o) == Fold(d, o) {
      RegisterIsInjective(Xor(c, Top(o)), Xor(d, Top(o)), 8);
      XorCancels(c, d, Top(o));
    }
  }

  lemma FoldKeepsOctetsApart(c: bv16, a: Octet, b: Octet)
    ensures Fold(c, a) == Fold(c, b) ==> a == b
  {
    FoldIsEightShifts(c, a);
    FoldIsEightShifts(c, b);
    if Fold(c, a) == Fold(c, b) {
      RegisterIsInjective(Xor(c, Top(a)), Xor(c, Top(b)), 8);
      XorCancels(Top(a), Top(b), c);
      TopSeparates(a, b);
    }
  }

  /** Folding in a byte loses nothing of the CRC so far. */
  lemma UpdateKeepsCrcApart(c: bv16, d: bv16, b: Byte)
    ensures Update(c, b) == Update(d, b) ==> c == d
  {
    FoldKeepsCrcApart(c, d, Bits(b));
  }

  /** Folding in different bytes gives different CRCs. */
  lemma UpdateKeepsBytesApart(c: bv16, a: Byte, b: Byte)
    ensures Update(c, a) == Update(c, b) ==> a == b
  {
    FoldKeepsOctetsApart(c, Bits(a), Bits(b));
    BitsSeparate(a, b);
  }

  lemma BottomMovesUp(o: Octet)
    ensures Iterate(Shift, Bottom(o), 8) == Top(o)
  {
    LowOfBottom(o);
    LowByteMovesUp(Bottom(o));
  }

  lemma LowOfBottom(o: Octet)
    ensures Low(Bottom(o)) == Bottom(o)
  {
  }

  /** Two octets at once are sixteen steps of the register. */
  lemma TwoFoldsAreSixteenShifts(c: bv16, a: Octet, b: Octet)
    ensures Fold(Fold(c, a), b) == Iterate(Shift, Xor(Xor(c, Top(a)), Bottom(b)), 16)
  {
    var x := Xor(c, Top(a));
    FoldIsEightShifts(c, a);
    FoldIsEightShifts(Fold(c, a), b);
    BottomMovesUp(b);
    RegisterIsLinear(x, Bottom(b), 8);
    IterateAgain(Shift, Xor(x, Bottom(b)), 8, 8);
  }

  lemma PairSeparates(c: bv16, a: Octet, b: Octet, a': Octet, b': Octet)
    ensures Xor(Xor(c, Top(a)), Bottom(b)) == Xor(Xor(c, Top(a')), Bottom(b')) ==> a == a' && b == b'
  {
    HighOfPair(c, a, b);
    HighOfPair(c, a', b');
  }

  lemma HighOfPair(c: bv16, a: Octet, b: Octet)
    ensures HighOctet(Xor(Xor(Xor(c, Top(a)), Bottom(b)), c)) == a
    ensures LowOctet(Xor(Xor(Xor(c, Top(a)), Bottom(b)), c)) == b
  {
  }

  lemma {:induction false} RestKeepsApart(c: bv16, d: bv16, rest: seq<Byte>)
    requires OfFrom(c, rest) == OfFrom(d, rest)
    ensures c == d
    decreases |rest|
  {
    if rest != [] {
      RestKeepsApart(Update(c, rest[0]), Update(d, rest[0]), rest[1..]);
      UpdateKeepsCrcApart(c, d, rest[0]);
    }
  }

  lemma {:induction false} OfJoin(c: bv16, front: seq<Byte>, rest: seq<Byte>)
    ensures OfFrom(c, front + rest) == OfFrom(OfFrom(c, front), rest)
    decreases |front|
  {
    if front == [] {
      assert front + rest == rest;
    } else {
      assert (front + rest)[1..] == front[1..] + rest;
      OfJoin(Update(c, front[0]), front[1..], rest);
    }
  }

  /** Strings of any length that differ in one byte have different CRCs. */
  lemma OneByteIsDetected(front: seq<Byte>, a: Byte, b: Byte, rest: seq<Byte>)
    requires Of(front + [a] + rest) == Of(front + [b] + rest)
    ensures a == b
  {
    var c := OfFrom(0, front);
    OfJoin(0, front + [a], rest);
    OfJoin(0, front + [b], rest);
    OfJoin(0, front, [a]);
    OfJoin(0, front, [b]);
    OfOne(c, a);
    OfOne(c, b);
    RestKeepsApart(Update(c, a), Update(c, b), rest);
    UpdateKeepsBytesApart(c, a, b);
  }

  lemma OfOne(c: bv16, a: Byte)
    ensures OfFrom(c, [a]) == Update(c, a)
  {
    assert [a][1..] == [];
  }

  lemma OfTwo(c: bv16, a: Byte, b: Byte)
    ensures OfFrom(c, [a, b]) == Update(Update(c, a), b)
  {
    assert [a, b][1..] == [b];
    OfOne(Update(c, a), b);
  }

  /** Strings of any length that differ only in two neighbouring bytes have different CRCs. */
  lemma TwoBytesAreDetected(front: seq<Byte>, a: Byte, b: Byte, a': Byte, b': Byte, rest: seq<Byte>)
    requires Of(front + [a, b] + rest) == Of(front + [a', b'] + rest)
    ensures a == a' && b == b'
  {
    var c := OfFrom(0, front);
    OfJoin(0, front + [a, b], rest);
    OfJoin(0, front + [a', b'], rest);
    OfJoin(0, front, [a, b]);
    OfJoin(0, front, [a', b']);
    OfTwo(c, a, b);
    OfTwo(c, a', b');
    RestKeepsApart(Update(Update(c, a), b), Update(Update(c, a'), b'), rest);
    PairsKeepApart(c, a, b, a', b');
  }

  lemma PairsKeepApart(c: bv16, a: Byte, b: Byte, a': Byte, b': Byte)
    requires Update(Update(c, a), b) == Update(Update(c, a'), b')
    ensures a == a' && b == b'
  {
    OctetPairsKeepApart(c, Bits(a), Bits(b), Bits(a'), Bits(b'));
    BitsSeparate(a, a');
    BitsSeparate(b, b');
  }

  lemma OctetPairsKeepApart(c: bv16, a: Octet, b: Octet, a': Octet, b': Octet)
    requires Fold(Fold(c, a), b) == Fold(Fold(c, a'), b')
    ensures a == a' && b == b'
  {
    TwoFoldsAreSixteenShifts(c, a, b);
    TwoFoldsAreSixteenShifts(c, a', b');
    RegisterIsInjective(Xor(Xor(c, Top(a)), Bottom(b)), Xor(Xor(c, Top(a')), Bottom(b')), 16);
    PairSeparates(c, a, b, a', b');
  }

  // ---------------------------------------------------------------- the last byte and the CRC itself

  /** Eight steps of the register, written out. */
  function EightShifts(c: bv16): bv16 { Shift(Shift(Shift(Shift(Shift(Shift(Shift(Shift(c)))))))) }

  lemma EntryIsEightShifts(o: Octet)
    ensures Entry(o) == EightShifts(Top(o))
  {
    var x := Top(o);
    assert Iterate(Shift, x, 1) == Shift(x);
    assert Iterate(Shift, x, 2) == Shift(Iterate(Shift, x, 1));
    assert Iterate(Shift, x, 3) == Shift(Iterate(Shift, x, 2));
    assert Iterate(Shift, x, 4) == Shift(Iterate(Shift, x, 3));
    assert Iterate(Shift, x, 5) == Shift(Iterate(Shift, x, 4));
    assert Iterate(Shift, x, 6) == Shift(Iterate(Shift, x, 5));
    assert Iterate(Shift, x, 7) == Shift(Iterate(Shift, x, 6));
  }

  function ClosedEntry(o: Octet): bv16 {
    var x := (o ^ (o >> 4)) as bv16;
    (x << 12) ^ (x << 5) ^ x
  }

  lemma EightShiftsClosed(o: Octet)
    ensures EightShifts(Top(o)) == ClosedEntry(o)
  {
  }

  /** The table entries in closed form. */
  lemma EntryIsClosed(o: Octet)
    ensures Entry(o) == ClosedEntry(o)
  {
    EntryIsEightShifts(o);
    EightShiftsClosed(o);
  }

  /** One entry besides the first has an empty high byte. */
  lemma LowEntries(o: Octet, l: Octet)
    ensures ClosedEntry(o) == Bottom(l) <==> (o == 0 && l == 0) || (o == 0x89 && l == 0xA1)
  {
  }

  lemma XorOfTops(c: bv16, a: Octet, b: Octet)
    ensures Xor(Xor(c, Top(a)), Xor(c, Top(b))) == Top(a ^ b)
  {
  }

  /** Folding in two octets differs by the table entry of their difference. */
  lemma FoldDifference(c: bv16, a: Octet, b: Octet)
    ensures Xor(Fold(c, a), Fold(c, b)) == Entry(a ^ b)
  {
    FoldIsEightShifts(c, a);
    FoldIsEightShifts(c, b);
    RegisterIsLinear(Xor(c, Top(a)), Xor(c, Top(b)), 8);
    XorOfTops(c, a, b);
  }

  lemma XorTwice(c: bv16, x: bv16)
    ensures Xor(c, Xor(c, x)) == x
  {
  }

  lemma XorSolved(f: bv16, g: bv16, e: bv16, l: bv16)
    requires Xor(f, g) == e
    ensures g == Xor(f, l) <==> e == l
  {
    XorTwice(f, g);
    XorTwice(f, l);
  }

  /** A changed last octet with a change of the low byte of the CRC goes undetected for one pair of changes only. */
  lemma LastOctetAndLow(c: bv16, a: Octet, b: Octet, l: Octet)
    ensures Fold(c, b) == Xor(Fold(c, a), Bottom(l)) <==> (a ^ b == 0 && l == 0) || (a ^ b == 0x89 && l == 0xA1)
  {
    FoldDifference(c, a, b);
    EntryIsClosed(a ^ b);
    LowEntries(a ^ b, l);
    XorSolved(Fold(c, a), Fold(c, b), Entry(a ^ b), Bottom(l));
  }
}
