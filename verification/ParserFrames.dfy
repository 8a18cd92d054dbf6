/** The parser and the printer undo each other, and a corrupted frame is refused. */
module ParserFrames {
  import opened Octets
  import opened Crc
  import opened CrcDetection
  import opened Frames
  import opened Parser
  import opened ParserSafety
  import opened ParserRuns

  // ---------------------------------------------------------------- what is delivered was printed

  /** The message a context holds. */
  function Held(c: Context): (m: Message)
    requires c.frame.dataLen <= |c.frame.data|
  {
    Message(c.frame.cls, c.frame.cmd, c.frame.data[..c.frame.dataLen])
  }

  /** The message a parser in its last state would hand over. */
  function Pending(p: Parser): (m: Message)
    requires Inv(p) && p.state == Tail
    ensures |m.data| == p.ctx.expectedLen - 2 <= MAX_PAYLOAD && Printable(m)
  {
    Held(p.ctx)
  }

  lemma TwoThenRest<T>(s: seq<T>, n: nat)
    requires 2 <= n && 3 + n <= |s|
    ensures s[3..3 + n] == [s[3], s[4]] + s[5..3 + n]
  {
  }

  lemma ThreeParts<T>(s: seq<T>, n: nat)
    requires |s| == 5 + n
    ensures s == [s[0], s[1], s[2]] + s[3..3 + n] + [s[3 + n], s[4 + n]]
  {
  }

  lemma HeldIsTaken(p: Parser, n: nat)
    requires Stored(p, n) && p.ctx.frame.dataLen == n - 2
    ensures Covered(Held(p.ctx)) == p.taken[3..3 + n]
    ensures p.ctx.runningCrc == Of(Covered(Held(p.ctx)))
  {
    TwoThenRest(p.taken, n);
  }

  /** In the last state the bytes taken are the frame of the pending message, but for the CRC. */
  lemma TakenIsFrame(p: Parser)
    requires Inv(p) && p.state == Tail
    ensures p.taken == Preamble(p.ctx.expectedLen) + Covered(Pending(p))
                     + [LowByte(p.ctx.frame.crc), HighByte(p.ctx.frame.crc)]
    ensures p.ctx.runningCrc == Of(Covered(Pending(p)))
  {
    HeldIsTaken(p, p.ctx.expectedLen);
    PartsAreFrame(p.taken, p.ctx.expectedLen);
  }

  lemma PartsAreFrame(taken: seq<Byte>, n: nat)
    requires |taken| == 5 + n && taken[0] == HEADER && n == Length(taken[1], taken[2])
    ensures n < 0x1_0000
    ensures var crc := Joined(taken[3 + n], taken[4 + n]);
            taken == Preamble(n) + taken[3..3 + n] + [LowByte(crc), HighByte(crc)]
  {
    ThreeParts(taken, n);
    JoinedBytes(taken[3 + n], taken[4 + n]);
  }

  /** A byte that makes the parser hand over a message completes exactly the frame of that message. */
  lemma DeliveryIsPrinted(p: Parser, b: Byte)
    requires Inv(p) && PutByte(p, b).ctx.delivered != p.ctx.delivered
    ensures p.state == Tail
    ensures PutByte(p, b).ctx.delivered == p.ctx.delivered + [Pending(p)]
    ensures p.taken + [b] == Encode(Pending(p))
  {
    LastByte(p, b);
    TakenIsFrame(p);
  }

  lemma LastByte(p: Parser, b: Byte)
    requires Inv(p)
    ensures p.state != Tail ==> PutByte(p, b).ctx.delivered == p.ctx.delivered
    ensures p.state == Tail ==>
              var q, s, crcOk := PutByte(p, b), Loaded(p.ctx, b).stats, p.ctx.runningCrc == p.ctx.frame.crc;
              && q.state == Idle
              && q.ctx.delivered == p.ctx.delivered + (if b == TAIL && crcOk then [Pending(p)] else [])
              && q.ctx.stats == (if b != TAIL then s.(tail := s.tail + 1)
                                 else if !crcOk then s.(crc := s.crc + 1)
                                 else s.(frames := s.frames + 1))
  {
    var c := Loaded(p.ctx, b);
    if p.state == Tail {
      TailMove(c);
    } else {
      ActionCounts(ByteMove(p.state, c).action, c);
    }
  }

  lemma TailMove(c: Context)
    requires c.frame.dataLen <= |c.frame.data| == MAX_PAYLOAD
    ensures var action, s := ByteMove(Tail, c).action, c.stats;
            var crcOk := c.runningCrc == c.frame.crc;
            && Safe(action, c)
            && Perform(action, c).delivered == c.delivered + (if c.byte == TAIL && crcOk then [Held(c)] else [])
            && Perform(action, c).stats == (if c.byte != TAIL then s.(tail := s.tail + 1)
                                            else if !crcOk then s.(crc := s.crc + 1)
                                            else s.(frames := s.frames + 1))
  {
  }

  /** Over every run from Idle, whenever a message is handed over the input so far ends with the
      bytes of its frame. */
  lemma DeliveriesWerePrinted(p: Parser, inputs: seq<Input>, b: Byte)
    requires Inv(p) && p.state == Idle
    requires Run(p, inputs + [Put(b)]).ctx.delivered != Run(p, inputs).ctx.delivered
    ensures exists m :: Printable(m) && |m.data| <= MAX_PAYLOAD
                     && Run(p, inputs + [Put(b)]).ctx.delivered == Run(p, inputs).ctx.delivered + [m]
                     && EndsWith(inputs + [Put(b)], Encode(m))
  {
    var q := Run(p, inputs);
    RunOneMore(p, inputs, Put(b));
    DeliveryIsPrinted(q, b);
    TakenIsSuffix(p, inputs);
    EndsWithOneMore(inputs, q.taken, b);
  }

  // ---------------------------------------------------------------- feeding a whole frame

  /** A byte string with a header and a valid length field that fits it. */
  predicate Shaped(x: seq<Byte>) {
    && 8 <= |x| <= MAX_PAYLOAD + 8
    && x[0] == HEADER
    && Length(x[1], x[2]) == |x| - OVERHEAD
  }

  /** The CRC field of a shaped string is the CRC of the bytes it covers. */
  predicate Sealed(x: seq<Byte>)
    requires Shaped(x)
  {
    Agree(x[3..|x| - 3], x[|x| - 3], x[|x| - 2])
  }

  predicate Agree(covered: seq<Byte>, lo: Byte, hi: Byte) { Of(covered) == Joined(lo, hi) }

  lemma ShapedGoesOn(q: Parser, x: seq<Byte>, i: nat)
    requires Inv(q) && Shaped(x) && i < |x| - 1 && q.taken == x[..i]
    ensures PutByte(q, x[i]).state != Idle
    ensures PutByte(q, x[i]).taken == x[..i + 1]
    ensures PutByte(q, x[i]).ctx.delivered == q.ctx.delivered
  {
    ByteCounts(q, x[i]);
    ShapedMove(q, x, i);
    assert x[..i] + [x[i]] == x[..i + 1];
  }

  /** The only bytes that can end an attempt are the high length byte and the last byte. */
  lemma OnlyTwoEnds(q: Parser, b: Byte)
    requires Inv(q) && q.state != Idle
    requires |q.taken| == 2 ==> 2 <= Length(q.taken[1], b) <= MAX_PAYLOAD + 2
    requires |q.taken| >= 3 ==> |q.taken| < 5 + Length(q.taken[1], q.taken[2])
    ensures ByteMove(q.state, Loaded(q.ctx, b)).to != Idle
  {
  }

  lemma ShapedMove(q: Parser, x: seq<Byte>, i: nat)
    requires Inv(q) && Shaped(x) && i < |x| - 1 && q.taken == x[..i]
    ensures ByteMove(q.state, Loaded(q.ctx, x[i])).to != Idle
  {
    TakenIsShort(q);
    if q.state != Idle {
      OnlyTwoEnds(q, x[i]);
    }
  }

  /** Before the last byte of a shaped string, the parser has taken all of it and ended nothing. */
  lemma {:induction false} ShapedIsTaken(p: Parser, x: seq<Byte>, i: nat)
    requires Inv(p) && p.state == Idle && Shaped(x) && i < |x|
    ensures var q := RunBytes(p, x[..i]);
            && q.taken == x[..i]
            && q.ctx.delivered == p.ctx.delivered
            && q.ctx.stats == p.ctx.stats.(bytes := p.ctx.stats.bytes + i)
  {
    if i == 0 {
      assert Puts(x[..0]) == [];
    } else {
      ShapedIsTaken(p, x, i - 1);
      RunNextByte(p, x, i - 1);
      var q := RunBytes(p, x[..i - 1]);
      ShapedGoesOn(q, x, i - 1);
      QuietMove(q, x[i - 1]);
    }
  }

  lemma QuietMove(p: Parser, b: Byte)
    requires Inv(p) && PutByte(p, b).state != Idle
    ensures PutByte(p, b).ctx.stats == p.ctx.stats.(bytes := p.ctx.stats.bytes + 1)
  {
    var c := Loaded(p.ctx, b);
    MoveEnds(p.state, c);
    QuietAction(ByteMove(p.state, c).action, c);
  }

  lemma QuietAction(action: Action, c: Context)
    requires Safe(action, c) && !Ends(action) && action != SyncError
    ensures Perform(action, c).stats == c.stats
  {
  }

  /** After all but the last byte the parser is in its last state, holding the string's parts. */
  lemma TailHolds(q: Parser, x: seq<Byte>, n: nat)
    requires Shaped(x) && q.taken == x[..|x| - 1] && n == |x| - 6
    requires Stored(q, n) && q.ctx.frame.dataLen == n - 2
    requires q.ctx.frame.crc == Joined(x[|x| - 3], x[|x| - 2])
    ensures q.ctx.runningCrc == q.ctx.frame.crc <==> Sealed(x)
    ensures Covered(Held(q.ctx)) == x[3..|x| - 3]
  {
    HeldIsTaken(q, n);
    assert q.taken[3..3 + n] == x[3..|x| - 3];
  }

  lemma MeasuredByLength(q: Parser)
    requires Inv(q) && |q.taken| >= 3
    ensures Measured(q)
  {
  }

  lemma TailByLength(q: Parser)
    requires Inv(q) && Measured(q) && |q.taken| == 5 + q.ctx.expectedLen
    ensures q.state == Tail && Stored(q, q.ctx.expectedLen)
    ensures q.ctx.frame.crc == Joined(q.taken[3 + q.ctx.expectedLen], q.taken[4 + q.ctx.expectedLen])
  {
  }

  lemma TailState(q: Parser, x: seq<Byte>)
    requires Inv(q) && Shaped(x) && q.taken == x[..|x| - 1]
    ensures q.state == Tail && q.ctx.expectedLen == |x| - 6
    ensures q.ctx.frame.crc == Joined(x[|x| - 3], x[|x| - 2])
  {
    MeasuredByLength(q);
    assert q.taken[1] == x[1] && q.taken[2] == x[2];
    TailByLength(q);
  }

  lemma ShapedReachesTail(q: Parser, x: seq<Byte>)
    requires Inv(q) && Shaped(x) && q.taken == x[..|x| - 1]
    ensures q.state == Tail
    ensures q.ctx.runningCrc == q.ctx.frame.crc <==> Sealed(x)
    ensures Covered(Pending(q)) == x[3..|x| - 3]
  {
    TailState(q, x);
    TailHolds(q, x, |x| - 6);
  }

  /** What the parser does with a whole shaped string: it is back in Idle, and it has handed over the
      covered bytes if the tail and the CRC are right, and counted the one error otherwise. */
  lemma ShapedOutcome(p: Parser, x: seq<Byte>, m: Message)
    requires Inv(p) && p.state == Idle && Shaped(x) && Covered(m) == x[3..|x| - 3]
    ensures var q, s := RunBytes(p, x), p.ctx.stats.(bytes := p.ctx.stats.bytes + |x|);
            var tailOk := x[|x| - 1] == TAIL;
            && q.state == Idle
            && q.ctx.delivered == p.ctx.delivered + (if tailOk && Sealed(x) then [m] else [])
            && q.ctx.stats == (if !tailOk then s.(tail := s.tail + 1)
                               else if !Sealed(x) then s.(crc := s.crc + 1)
                               else s.(frames := s.frames + 1))
  {
    var last := |x| - 1;
    var q := RunBytes(p, x[..last]);
    ShapedIsTaken(p, x, last);
    ShapedReachesTail(q, x);
    RunNextByte(p, x, last);
    assert x[..last + 1] == x;
    LastByte(q, x[last]);
    CoveredSeparates(m, Pending(q));
  }

  lemma CoveredSeparates(a: Message, b: Message)
    requires Covered(a) == Covered(b)
    ensures a == b
  {
    assert a.cls == Covered(a)[0] && a.cmd == Covered(a)[1] && a.data == Covered(a)[2..];
    assert b.cls == Covered(b)[0] && b.cmd == Covered(b)[1] && b.data == Covered(b)[2..];
  }

  // ---------------------------------------------------------------- printer and parser

  lemma EncodedIsShaped(m: Message)
    requires |m.data| <= MAX_PAYLOAD
    ensures Printable(m) && Shaped(Encode(m)) && Sealed(Encode(m))
    ensures Covered(m) == Encode(m)[3..|Encode(m)| - 3] && Encode(m)[|Encode(m)| - 1] == TAIL
  {
    var x := Encode(m);
    assert x[1] == LengthLow(2 + |m.data|) && x[2] == LengthHigh(2 + |m.data|);
    assert Covered(m) == x[3..|x| - 3];
    JoinedRoundTrip(Of(Covered(m)));
  }

  /** Printing then parsing: an idle parser fed the frame of a message hands over exactly that message,
      once, and is idle again, for every message of at most 256 data bytes. */
  lemma ParseOfPrint(p: Parser, m: Message)
    requires Inv(p) && p.state == Idle && |m.data| <= MAX_PAYLOAD
    ensures var q := RunBytes(p, Encode(m));
            && q.state == Idle
            && q.ctx.delivered == p.ctx.delivered + [m]
            && q.ctx.stats == p.ctx.stats.(bytes := p.ctx.stats.bytes + |Encode(m)|, frames := p.ctx.stats.frames + 1)
  {
    EncodedIsShaped(m);
    ShapedOutcome(p, Encode(m), m);
  }

  /** A longer message is refused at its length field. */
  lemma LongFrameIsRefused(p: Parser, m: Message)
    requires Inv(p) && Printable(m) && |m.data| > MAX_PAYLOAD
    requires p.taken == Encode(m)[..2]
    ensures var q := PutByte(p, Encode(m)[2]);
            && q.state == Idle
            && q.ctx.delivered == p.ctx.delivered
            && q.ctx.stats == p.ctx.stats.(bytes := p.ctx.stats.bytes + 1, length := p.ctx.stats.length + 1)
  {
    var x := Encode(m);
    var n := 2 + |m.data|;
    assert x[1] == LengthLow(n) && x[2] == LengthHigh(n) && p.taken[1] == x[1];
    RefusesLength(p, x[1], x[2]);
  }

  lemma RefusesLength(p: Parser, lo: Byte, hi: Byte)
    requires Inv(p) && p.state == LenHi && p.ctx.expectedLen == lo && Length(lo, hi) > MAX_PAYLOAD + 2
    ensures var q := PutByte(p, hi);
            && q.state == Idle && q.ctx.delivered == p.ctx.delivered
            && q.ctx.stats == p.ctx.stats.(bytes := p.ctx.stats.bytes + 1, length := p.ctx.stats.length + 1)
  {
  }

  lemma SplitAtByte<T>(x: seq<T>, i: nat, b: T)
    requires 3 <= i < |x| - 3
    ensures x[i := b][3..|x| - 3] == x[3..i] + [b] + x[i + 1..|x| - 3]
  {
  }

  lemma SplitAtPair<T>(x: seq<T>, i: nat, a: T, b: T)
    requires 3 <= i < |x| - 4
    ensures x[i := a][i + 1 := b][3..|x| - 3] == x[3..i] + [a, b] + x[i + 2..|x| - 3]
  {
  }

  lemma PairInPlace<T>(x: seq<T>, i: nat)
    requires 3 <= i < |x| - 4
    ensures x[3..|x| - 3] == x[3..i] + [x[i], x[i + 1]] + x[i + 2..|x| - 3]
  {
  }

  lemma JoinedSeparates(lo: Byte, hi: Byte, lo': Byte, hi': Byte)
    requires Joined(lo, hi) == Joined(lo', hi')
    ensures lo == lo' && hi == hi'
  {
    JoinedBytes(lo, hi);
    JoinedBytes(lo', hi');
  }

  lemma SealOf(x: seq<Byte>, y: seq<Byte>, covered: seq<Byte>)
    requires Shaped(x) && |y| == |x| && x[0] == y[0] && x[1] == y[1] && x[2] == y[2]
    requires y[3..|x| - 3] == covered && x[|x| - 3] == y[|x| - 3] && x[|x| - 2] == y[|x| - 2]
    ensures Shaped(y)
    ensures Sealed(y) <==> Agree(covered, x[|x| - 3], x[|x| - 2])
  {
  }

  lemma AgreeOnce(front: seq<Byte>, a: Byte, b: Byte, rest: seq<Byte>, lo: Byte, hi: Byte)
    requires a != b && Agree(front + [a] + rest, lo, hi)
    ensures !Agree(front + [b] + rest, lo, hi)
  {
    if Agree(front + [b] + rest, lo, hi) {
      OneByteIsDetected(front, a, b, rest);
    }
  }

  lemma AgreeOncePair(front: seq<Byte>, a: Byte, b: Byte, a': Byte, b': Byte, rest: seq<Byte>, lo: Byte, hi: Byte)
    requires (a != a' || b != b') && Agree(front + [a, b] + rest, lo, hi)
    ensures !Agree(front + [a', b'] + rest, lo, hi)
  {
    if Agree(front + [a', b'] + rest, lo, hi) {
      TwoBytesAreDetected(front, a, b, a', b', rest);
    }
  }

  lemma SealOfByte(x: seq<Byte>, i: nat, b: Byte)
    requires Shaped(x) && 3 <= i < |x| - 3
    ensures Shaped(x[i := b])
    ensures Sealed(x[i := b]) <==> Agree(x[3..i] + [b] + x[i + 1..|x| - 3], x[|x| - 3], x[|x| - 2])
  {
    SplitAtByte(x, i, b);
    SealOf(x, x[i := b], x[3..i] + [b] + x[i + 1..|x| - 3]);
  }

  /** A change of one byte among class, command and data leaves a shaped string that is not sealed. */
  lemma CoveredByteUnseals(x: seq<Byte>, i: nat, b: Byte)
    requires Shaped(x) && Sealed(x) && 3 <= i < |x| - 3 && b != x[i]
    ensures Shaped(x[i := b]) && !Sealed(x[i := b])
  {
    SealOfByte(x, i, b);
    SealOfByte(x, i, x[i]);
    assert x[i := x[i]] == x;
    AgreeOnce(x[3..i], x[i], b, x[i + 1..|x| - 3], x[|x| - 3], x[|x| - 2]);
  }

  /** And so does a change of one byte of the CRC. */
  lemma CrcByteUnseals(x: seq<Byte>, i: nat, b: Byte)
    requires Shaped(x) && Sealed(x) && |x| - 3 <= i < |x| - 1 && b != x[i]
    ensures Shaped(x[i := b]) && !Sealed(x[i := b])
  {
    var y := x[i := b];
    assert y[3..|x| - 3] == x[3..|x| - 3];
    if Sealed(y) {
      JoinedSeparates(x[|x| - 3], x[|x| - 2], y[|x| - 3], y[|x| - 2]);
    }
  }

  lemma UnsealedIsRefused(p: Parser, y: seq<Byte>)
    requires Inv(p) && p.state == Idle && Shaped(y) && !Sealed(y) && y[|y| - 1] == TAIL
    ensures var q := RunBytes(p, y);
            && q.state == Idle
            && q.ctx.delivered == p.ctx.delivered
            && q.ctx.stats == p.ctx.stats.(bytes := p.ctx.stats.bytes + |y|, crc := p.ctx.stats.crc + 1)
  {
    TwoThenRest(y, |y| - 6);
    ShapedOutcome(p, y, Message(y[3], y[4], y[5..|y| - 3]));
  }

  /** A frame with one byte changed among class, command, data and CRC is never handed over: the
      parser counts one CRC error and is idle again, for every message and every position. */
  lemma CorruptByteIsRefused(p: Parser, m: Message, i: nat, b: Byte)
    requires Inv(p) && p.state == Idle && |m.data| <= MAX_PAYLOAD
    requires 3 <= i < |Encode(m)| - 1 && b != Encode(m)[i]
    ensures var q := RunBytes(p, Encode(m)[i := b]);
            && q.state == Idle
            && q.ctx.delivered == p.ctx.delivered
            && q.ctx.stats == p.ctx.stats.(bytes := p.ctx.stats.bytes + |Encode(m)|, crc := p.ctx.stats.crc + 1)
  {
    EncodedIsShaped(m);
    if i < |Encode(m)| - 3 {
      CoveredByteUnseals(Encode(m), i, b);
    } else {
      CrcByteUnseals(Encode(m), i, b);
    }
    UnsealedIsRefused(p, Encode(m)[i := b]);
  }

  /** Likewise for any change confined to two neighbouring bytes of class, command and data. */
  lemma CorruptPairIsRefused(p: Parser, m: Message, i: nat, a: Byte, b: Byte)
    requires Inv(p) && p.state == Idle && |m.data| <= MAX_PAYLOAD
    requires 3 <= i < |Encode(m)| - 4 && (a != Encode(m)[i] || b != Encode(m)[i + 1])
    ensures var q := RunBytes(p, Encode(m)[i := a][i + 1 := b]);
            && q.state == Idle
            && q.ctx.delivered == p.ctx.delivered
            && q.ctx.stats == p.ctx.stats.(bytes := p.ctx.stats.bytes + |Encode(m)|, crc := p.ctx.stats.crc + 1)
  {
    EncodedIsShaped(m);
    PairUnseals(Encode(m), i, a, b);
    UnsealedIsRefused(p, Encode(m)[i := a][i + 1 := b]);
  }

  lemma SealOfPair(x: seq<Byte>, i: nat, a: Byte, b: Byte)
    requires Shaped(x) && 3 <= i < |x| - 4
    ensures Shaped(x[i := a][i + 1 := b])
    ensures Sealed(x[i := a][i + 1 := b]) <==> Agree(x[3..i] + [a, b] + x[i + 2..|x| - 3], x[|x| - 3], x[|x| - 2])
  {
    SplitAtPair(x, i, a, b);
    SealOf(x, x[i := a][i + 1 := b], x[3..i] + [a, b] + x[i + 2..|x| - 3]);
  }

  lemma PairUnseals(x: seq<Byte>, i: nat, a: Byte, b: Byte)
    requires Shaped(x) && Sealed(x) && 3 <= i < |x| - 4 && (a != x[i] || b != x[i + 1])
    ensures Shaped(x[i := a][i + 1 := b]) && !Sealed(x[i := a][i + 1 := b])
  {
    SealOfPair(x, i, a, b);
    PairInPlace(x, i);
    SealOf(x, x, x[3..i] + [x[i], x[i + 1]] + x[i + 2..|x| - 3]);
    AgreeOncePair(x[3..i], x[i], x[i + 1], a, b, x[i + 2..|x| - 3], x[|x| - 3], x[|x| - 2]);
  }

  // ---------------------------------------------------------------- pairs that reach into the CRC

  function OctetPair(lo: Octet, hi: Octet): bv16 { Bottom(lo) | Top(hi) }

  lemma JoinedIsPair(lo: Byte, hi: Byte)
    ensures Joined(lo, hi) == OctetPair(Bits(lo), Bits(hi))
  {
  }

  lemma PairChanges(lo: Octet, lo': Octet, hi: Octet)
    ensures OctetPair(lo', hi) == Xor(OctetPair(lo, hi), Bottom(lo ^ lo'))
  {
  }

  lemma SameOctets(a: Octet, b: Octet)
    ensures a ^ b == 0 <==> a == b
  {
  }

  predicate OctetsCancel(a: Octet, a': Octet, lo: Octet, lo': Octet) { a ^ a' == 0x89 && lo ^ lo' == 0xA1 }

  lemma LastOctets(c: bv16, a: Octet, a': Octet, lo: Octet, lo': Octet, hi: Octet)
    requires Fold(c, a) == OctetPair(lo, hi)
    ensures Fold(c, a') == OctetPair(lo', hi) <==> (a == a' && lo == lo') || OctetsCancel(a, a', lo, lo')
  {
    PairChanges(lo, lo', hi);
    LastOctetAndLow(c, a, a', lo ^ lo');
    SameOctets(a, a');
    SameOctets(lo, lo');
  }

  /** The one change of the last covered byte, with the one change of the low CRC byte, that agree. */
  predicate Cancels(a: Byte, a': Byte, lo: Byte, lo': Byte) { OctetsCancel(Bits(a), Bits(a'), Bits(lo), Bits(lo')) }

  lemma LastByteAndLow(c: bv16, a: Byte, a': Byte, lo: Byte, lo': Byte, hi: Byte)
    requires Update(c, a) == Joined(lo, hi)
    ensures Update(c, a') == Joined(lo', hi) <==> (a == a' && lo == lo') || Cancels(a, a', lo, lo')
  {
    JoinedIsPair(lo, hi);
    JoinedIsPair(lo', hi);
    LastOctets(c, Bits(a), Bits(a'), Bits(lo), Bits(lo'), Bits(hi));
    BitsSeparate(a, a');
    BitsSeparate(lo, lo');
  }

  lemma LastAgrees(front: seq<Byte>, a: Byte, a': Byte, lo: Byte, lo': Byte, hi: Byte)
    requires Agree(front + [a], lo, hi)
    ensures Agree(front + [a'], lo', hi) <==> (a == a' && lo == lo') || Cancels(a, a', lo, lo')
  {
    OfJoin(0, front, [a]);
    OfJoin(0, front, [a']);
    OfOne(OfFrom(0, front), a);
    OfOne(OfFrom(0, front), a');
    LastByteAndLow(OfFrom(0, front), a, a', lo, lo', hi);
  }

  lemma LastPairSeals(x: seq<Byte>, a: Byte, b: Byte)
    requires Shaped(x) && Sealed(x)
    ensures var i := |x| - 4;
            && Shaped(x[i := a][i + 1 := b])
            && (Sealed(x[i := a][i + 1 := b]) <==> (x[i] == a && x[i + 1] == b) || Cancels(x[i], a, x[i + 1], b))
  {
    var i := |x| - 4;
    var y := x[i := a][i + 1 := b];
    assert x[3..i + 1] == x[3..i] + [x[i]] && y[3..i + 1] == x[3..i] + [a];
    LastAgrees(x[3..i], x[i], a, x[i + 1], b, x[i + 2]);
  }

  /** A change of the last covered byte and the low CRC byte is refused like the others, but for one pair of changes:
      the byte by 0x89 and the CRC by 0xA1. Then another message is handed over. */
  lemma CorruptLastPair(p: Parser, m: Message, a: Byte, b: Byte)
    requires Inv(p) && p.state == Idle && |m.data| <= MAX_PAYLOAD
    requires var x := Encode(m); a != x[|x| - 4] || b != x[|x| - 3]
    ensures var x, i := Encode(m), |m.data| + 4;
            var q, s := RunBytes(p, x[i := a][i + 1 := b]), p.ctx.stats.(bytes := p.ctx.stats.bytes + |x|);
            && q.state == Idle
            && if Cancels(x[i], a, x[i + 1], b) then
                 && q.ctx.stats == s.(frames := s.frames + 1)
                 && q.ctx.delivered == p.ctx.delivered + [ChangedLast(m, a)]
               else q.ctx.stats == s.(crc := s.crc + 1) && q.ctx.delivered == p.ctx.delivered
  {
    var x, i := Encode(m), |m.data| + 4;
    var y: seq<Byte> := x[i := a][i + 1 := b];
    EncodedIsShaped(m);
    LastPairSeals(x, a, b);
    ChangedIsCovered(m, a, b);
    ShapedOutcome(p, y, ChangedLast(m, a));
  }

  lemma ChangedIsCovered(m: Message, a: Byte, b: Byte)
    requires |m.data| <= MAX_PAYLOAD
    ensures var x, i := Encode(m), |m.data| + 4;
            x[i := a][i + 1 := b][3..|x| - 3] == Covered(ChangedLast(m, a))
  {
    var x, i := Encode(m), |m.data| + 4;
    assert x[3..|x| - 3] == Covered(m);
    assert x[i := a][i + 1 := b][3..|x| - 3] == x[3..|x| - 3][i - 3 := a];
  }

  /** The message with its last byte, or its command if it has no data, changed. */
  function ChangedLast(m: Message, a: Byte): Message {
    if m.data == [] then m.(cmd := a) else m.(data := m.data[|m.data| - 1 := a])
  }

  /** A change of the CRC field itself, of one byte or both, is always refused. */
  lemma CorruptCrcIsRefused(p: Parser, m: Message, lo: Byte, hi: Byte)
    requires Inv(p) && p.state == Idle && |m.data| <= MAX_PAYLOAD
    requires var x := Encode(m); lo != x[|x| - 3] || hi != x[|x| - 2]
    ensures var x, i := Encode(m), |m.data| + 5;
            var q := RunBytes(p, x[i := lo][i + 1 := hi]);
            && q.state == Idle && q.ctx.delivered == p.ctx.delivered
            && q.ctx.stats == p.ctx.stats.(bytes := p.ctx.stats.bytes + |x|, crc := p.ctx.stats.crc + 1)
  {
    var x, i := Encode(m), |m.data| + 5;
    var y := x[i := lo][i + 1 := hi];
    EncodedIsShaped(m);
    assert y[3..|x| - 3] == x[3..|x| - 3];
    if Sealed(y) {
      JoinedSeparates(x[i], x[i + 1], lo, hi);
    }
    UnsealedIsRefused(p, y);
  }
}
