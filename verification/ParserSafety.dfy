/** What holds of the parser after any bytes and resets: its fields are exactly what the
    bytes taken since the header say. */
module ParserSafety {
  import opened Octets
  import opened Crc
  import opened CrcDetection
  import opened Frames
  import opened Parser

  /** The length field is complete and valid. */
  predicate Measured(p: Parser) {
    && |p.taken| >= 3 && p.taken[0] == HEADER
    && p.ctx.expectedLen == Length(p.taken[1], p.taken[2])
    && 2 <= p.ctx.expectedLen <= MAX_PAYLOAD + 2
    && p.ctx.frame.dataLen == p.ctx.expectedLen - 2
  }

  /** The first `n` bytes after the length are stored, and the running CRC covers them. */
  predicate Stored(p: Parser, n: nat) {
    && 2 <= n <= MAX_PAYLOAD + 2 && |p.taken| >= 3 + n && |p.ctx.frame.data| == MAX_PAYLOAD
    && p.ctx.frame.cls == p.taken[3] && p.ctx.frame.cmd == p.taken[4]
    && p.ctx.frame.data[..n - 2] == p.taken[5..3 + n]
    && p.ctx.runningCrc == Of(p.taken[3..3 + n])
  }

  predicate Inv(p: Parser) {
    var c := p.ctx;
    && |c.frame.data| == MAX_PAYLOAD
    && match p.state
       case Idle => p.taken == []
       case LenLo => p.taken == [HEADER] && c.payloadIndex == 0 && c.runningCrc == 0
       case LenHi =>
         && |p.taken| == 2 && p.taken[0] == HEADER && c.expectedLen == p.taken[1]
         && c.payloadIndex == 0 && c.runningCrc == 0
       case CmdClass => Measured(p) && |p.taken| == 3 && c.payloadIndex == 0 && c.runningCrc == 0
       case Cmd =>
         && Measured(p) && |p.taken| == 4 && c.payloadIndex == 1
         && c.frame.cls == p.taken[3] && c.runningCrc == Of(p.taken[3..])
       case Data =>
         && Measured(p) && 2 <= c.payloadIndex < c.expectedLen
         && |p.taken| == 3 + c.payloadIndex && Stored(p, c.payloadIndex)
       case CrcLo => Measured(p) && |p.taken| == 3 + c.expectedLen && Stored(p, c.expectedLen)
       case CrcHi =>
         && Measured(p) && |p.taken| == 4 + c.expectedLen && Stored(p, c.expectedLen)
         && c.frame.crc == Joined(p.taken[3 + c.expectedLen], 0)
       case Tail =>
         && Measured(p) && |p.taken| == 5 + c.expectedLen && Stored(p, c.expectedLen)
         && c.frame.crc == Joined(p.taken[3 + c.expectedLen], p.taken[4 + c.expectedLen])
  }

  /** One byte into the parser. */
  function PutByte(p: Parser, b: Byte): Parser
    requires Inv(p)
  {
    Handle(p.(ctx := Loaded(p.ctx, b)), GotByte)
  }

  lemma LoadedKeeps(p: Parser, b: Byte)
    requires Inv(p)
    ensures var c := Loaded(p.ctx, b);
            Inv(p.(ctx := c)) && Safe(MoveOf(p.state, GotByte, c).action, c)
  {
  }

  lemma OfGrows(s: seq<Byte>, b: Byte)
    ensures Of(s + [b]) == Update(Of(s), b)
  {
    OfJoin(0, s, [b]);
    OfOne(Of(s), b);
  }

  lemma LenLoKeeps(p: Parser, b: Byte)
    requires Inv(p) && (p.state == Idle || p.state == LenLo || p.state == LenHi)
    ensures Inv(PutByte(p, b))
  {
  }

  lemma ClassKeeps(p: Parser, b: Byte)
    requires Inv(p) && p.state == CmdClass
    ensures Inv(PutByte(p, b))
  {
    var q := PutByte(p, b);
    OfGrows([], b);
    assert q.taken[3..] == [] + [b];
  }

  lemma StoredFirst(p: Parser, q: Parser, b: Byte)
    requires Measured(p) && |p.taken| == 4 && p.ctx.frame.cls == p.taken[3] && p.ctx.runningCrc == Of(p.taken[3..])
    requires q.taken == p.taken + [b] && q.ctx.runningCrc == Update(p.ctx.runningCrc, b)
    requires |p.ctx.frame.data| == MAX_PAYLOAD && q.ctx.frame == p.ctx.frame.(cmd := b)
    ensures Stored(q, 2)
  {
    OfGrows(p.taken[3..], b);
    assert q.taken[3..3 + 2] == p.taken[3..] + [b];
    assert q.taken[5..5] == [];
  }

  lemma PrefixGrows<T>(data: seq<T>, taken: seq<T>, n: nat, b: T)
    requires 2 <= n && |taken| == 3 + n && n - 2 < |data| && data[..n - 2] == taken[5..3 + n]
    ensures data[n - 2 := b][..n - 1] == (taken + [b])[5..4 + n]
    ensures (taken + [b])[3..4 + n] == taken[3..3 + n] + [b]
  {
    assert data[n - 2 := b][..n - 1] == data[..n - 2] + [b];
    assert (taken + [b])[5..4 + n] == taken[5..3 + n] + [b];
  }

  lemma StoredNext(p: Parser, q: Parser, n: nat, b: Byte)
    requires Stored(p, n) && |p.taken| == 3 + n && n < MAX_PAYLOAD + 2
    requires q.taken == p.taken + [b] && q.ctx.runningCrc == Update(p.ctx.runningCrc, b)
    requires q.ctx.frame == p.ctx.frame.(data := p.ctx.frame.data[n - 2 := b])
    ensures Stored(q, n + 1)
  {
    PrefixGrows(p.ctx.frame.data, p.taken, n, b);
    OfGrows(p.taken[3..3 + n], b);
  }

  lemma StoredStays(p: Parser, q: Parser, n: nat, b: Byte, crc: bv16)
    requires Stored(p, n)
    requires q.taken == p.taken + [b] && q.ctx.runningCrc == p.ctx.runningCrc
    requires q.ctx.frame == p.ctx.frame.(crc := crc)
    ensures Stored(q, n)
  {
    assert q.taken[3..3 + n] == p.taken[3..3 + n];
    assert q.taken[5..3 + n] == p.taken[5..3 + n];
  }

  lemma JoinHigh(lo: Byte, hi: Byte)
    ensures WithHigh(Joined(lo, 0), hi) == Joined(lo, hi)
  {
    NoHighBits(Bottom(Bits(lo)));
  }

  lemma NoHighBits(c: bv16)
    ensures WithHigh(c, 0) == c
  {
  }

  /** The length field stays what it is. */
  lemma MeasuredStays(p: Parser, q: Parser, b: Byte)
    requires Measured(p) && q.taken == p.taken + [b]
    requires q.ctx.expectedLen == p.ctx.expectedLen && q.ctx.frame.dataLen == p.ctx.frame.dataLen
    ensures Measured(q)
  {
  }

  /** What a byte does once the length is known. */
  lemma CmdEffect(p: Parser, b: Byte)
    requires Inv(p) && p.state.Cmd?
    ensures var q, c := PutByte(p, b), p.ctx;
            && q.state == (if c.expectedLen > 2 then Data else CrcLo) && q.taken == p.taken + [b]
            && q.ctx.expectedLen == c.expectedLen && q.ctx.payloadIndex == c.payloadIndex + 1
            && q.ctx.frame == c.frame.(cmd := b) && q.ctx.runningCrc == Update(c.runningCrc, b)
  {
  }

  lemma DataEffect(p: Parser, b: Byte)
    requires Inv(p) && p.state.Data?
    ensures var q, c := PutByte(p, b), p.ctx;
            && q.state == (if c.payloadIndex + 1 >= c.expectedLen then CrcLo else Data) && q.taken == p.taken + [b]
            && q.ctx.expectedLen == c.expectedLen && q.ctx.payloadIndex == c.payloadIndex + 1
            && q.ctx.frame == c.frame.(data := c.frame.data[c.payloadIndex - 2 := b])
            && q.ctx.runningCrc == Update(c.runningCrc, b)
  {
  }

  lemma CrcEffect(p: Parser, b: Byte)
    requires Inv(p) && (p.state.CrcLo? || p.state.CrcHi?)
    ensures var q, c := PutByte(p, b), p.ctx;
            && q.state == (if p.state.CrcLo? then CrcHi else Tail) && q.taken == p.taken + [b]
            && q.ctx.expectedLen == c.expectedLen && q.ctx.runningCrc == c.runningCrc
            && q.ctx.frame == c.frame.(crc := if p.state.CrcLo? then Joined(b, 0) else WithHigh(c.frame.crc, b))
  {
  }

  lemma CmdKeeps(p: Parser, b: Byte)
    requires Inv(p) && p.state.Cmd?
    ensures Inv(PutByte(p, b))
  {
    var q := PutByte(p, b);
    CmdEffect(p, b);
    MeasuredStays(p, q, b);
    StoredFirst(p, q, b);
  }

  lemma DataKeeps(p: Parser, b: Byte)
    requires Inv(p) && p.state.Data?
    ensures Inv(PutByte(p, b))
  {
    var q := PutByte(p, b);
    DataEffect(p, b);
    MeasuredStays(p, q, b);
    StoredNext(p, q, p.ctx.payloadIndex, b);
  }

  lemma CrcKeeps(p: Parser, b: Byte)
    requires Inv(p) && (p.state.CrcLo? || p.state.CrcHi?)
    ensures Inv(PutByte(p, b))
  {
    var q := PutByte(p, b);
    CrcEffect(p, b);
    MeasuredStays(p, q, b);
    StoredStays(p, q, p.ctx.expectedLen, b, q.ctx.frame.crc);
    if p.state.CrcHi? {
      JoinHigh(p.taken[3 + p.ctx.expectedLen], b);
    }
  }

  lemma PutByteKeeps(p: Parser, b: Byte)
    requires Inv(p)
    ensures Inv(PutByte(p, b))
  {
    match p.state
    case CmdClass => ClassKeeps(p, b);
    case Cmd => CmdKeeps(p, b);
    case Data => DataKeeps(p, b);
    case CrcLo => CrcKeeps(p, b);
    case CrcHi => CrcKeeps(p, b);
    case Tail =>
    case _ => LenLoKeeps(p, b);
  }
}
