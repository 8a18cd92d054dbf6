/** Whole runs of the parser: every attempt ends within 263 bytes, every attempt is counted once, and what the
    parser has taken is the end of its input. */
module ParserRuns {
  import opened Octets
  import opened Frames
  import opened Parser
  import opened ParserSafety

  /** What can happen to a parser: a byte arrives, or it is reset. */
  datatype Input = Put(byte: Byte) | Abort

  function Feed(p: Parser, input: Input): (q: Parser)
    requires Inv(p)
    ensures Inv(q)
  {
    match input
    case Put(b) => PutByteKeeps(p, b); PutByte(p, b)
    case Abort => Handle(p, Reset)
  }

  function Run(p: Parser, inputs: seq<Input>): (q: Parser)
    requires Inv(p)
    ensures Inv(q)
    decreases |inputs|
  {
    if inputs == [] then p else Feed(Run(p, inputs[..|inputs| - 1]), inputs[|inputs| - 1])
  }

  function Puts(bytes: seq<Byte>): seq<Input> { seq(|bytes|, i requires 0 <= i < |bytes| => Put(bytes[i])) }

  function RunBytes(p: Parser, bytes: seq<Byte>): (q: Parser)
    requires Inv(p)
    ensures Inv(q)
  {
    Run(p, Puts(bytes))
  }

  lemma RunOneMore(p: Parser, inputs: seq<Input>, input: Input)
    requires Inv(p)
    ensures Run(p, inputs + [input]) == Feed(Run(p, inputs), input)
  {
    assert (inputs + [input])[..|inputs|] == inputs;
  }

  lemma RunNextByte(p: Parser, bytes: seq<Byte>, i: nat)
    requires Inv(p) && i < |bytes|
    ensures RunBytes(p, bytes[..i + 1]) == PutByte(RunBytes(p, bytes[..i]), bytes[i])
  {
    assert Puts(bytes[..i + 1]) == Puts(bytes[..i]) + [Put(bytes[i])];
    RunOneMore(p, Puts(bytes[..i]), Put(bytes[i]));
  }

  // ---------------------------------------------------------------- one byte

  /** The sum of the counters that end an attempt. */
  function Ended(s: Stats): nat { s.frames + s.crc + s.tail + s.length }

  predicate Ends(action: Action) {
    action == LengthError || action == TailError || action == CrcError || action == FrameOk
  }

  /** The statistics after an action. */
  function StatsAfter(action: Action, s: Stats): Stats {
    match action
    case SyncError => s.(sync := s.sync + 1)
    case LengthError => s.(length := s.length + 1)
    case TailError => s.(tail := s.tail + 1)
    case CrcError => s.(crc := s.crc + 1)
    case FrameOk => s.(frames := s.frames + 1)
    case _ => s
  }

  lemma ActionStats(action: Action, c: Context)
    requires Safe(action, c)
    ensures Perform(action, c).stats == StatsAfter(action, c.stats)
    ensures action != FrameOk ==> Perform(action, c).delivered == c.delivered
  {
  }

  lemma ActionCounts(action: Action, c: Context)
    requires Safe(action, c)
    ensures Ended(Perform(action, c).stats) == Ended(c.stats) + if Ends(action) then 1 else 0
    ensures Perform(action, c).stats.sync == c.stats.sync + if action == SyncError then 1 else 0
    ensures Perform(action, c).stats.bytes == c.stats.bytes
    ensures action != FrameOk ==> Perform(action, c).delivered == c.delivered
  {
    ActionStats(action, c);
    StatsCount(action, c.stats);
  }

  lemma StatsCount(action: Action, s: Stats)
    ensures var t := StatsAfter(action, s);
            && Ended(t) == Ended(s) + (if Ends(action) then 1 else 0)
            && t.sync == s.sync + (if action == SyncError then 1 else 0) && t.bytes == s.bytes
  {
  }

  lemma MoveEnds(state: State, c: Context)
    ensures var move := ByteMove(state, c);
            && (Ends(move.action) <==> state != Idle && move.to == Idle)
            && (move.action == SyncError <==> state == Idle && move.to == Idle)
  {
  }

  /** While an attempt goes on a byte only lengthens it; a byte that ends it is counted once. */
  lemma ByteCounts(p: Parser, b: Byte)
    requires Inv(p)
    ensures var q := PutByte(p, b);
            && q.taken == (if q.state == Idle then [] else p.taken + [b])
            && Ended(q.ctx.stats) == Ended(p.ctx.stats) + (if p.state != Idle && q.state == Idle then 1 else 0)
            && q.ctx.stats.sync == p.ctx.stats.sync + (if p.state == Idle && q.state == Idle then 1 else 0)
            && q.ctx.stats.bytes == p.ctx.stats.bytes + 1
            && (q.state != Idle ==> q.ctx.delivered == p.ctx.delivered)
  {
    var c := Loaded(p.ctx, b);
    MoveEnds(p.state, c);
    ActionCounts(ByteMove(p.state, c).action, c);
  }

  lemma TakenIsShort(p: Parser)
    requires Inv(p)
    ensures |p.taken| <= MAX_PAYLOAD + 7
    ensures p.state == Idle <==> p.taken == []
  {
  }

  // ---------------------------------------------------------------- every attempt is counted

  /** How often a run leaves Idle, returns to it on a byte, and returns to it on a reset. */
  function Tally(p: Parser, inputs: seq<Input>, counts: (State, Input, State) -> bool): nat
    requires Inv(p)
    decreases |inputs|
  {
    if inputs == [] then 0
    else
      var front := inputs[..|inputs| - 1];
      var input := inputs[|inputs| - 1];
      var before := Run(p, front);
      Tally(p, front, counts) + if counts(before.state, input, Feed(before, input).state) then 1 else 0
  }

  predicate Starts(s: State, input: Input, t: State) { s == Idle && t != Idle }

  predicate EndsByByte(s: State, input: Input, t: State) { s != Idle && input.Put? && t == Idle }

  predicate EndsByReset(s: State, input: Input, t: State) { s != Idle && input.Abort? && t == Idle }

  /** Over every run from Idle: the frame, CRC, tail and length counters sum to the attempts ended
      by a byte, and every attempt started is ended by a byte, ended by a reset, or still going. */
  lemma {:induction false} AttemptsBalance(p: Parser, inputs: seq<Input>)
    requires Inv(p) && p.state == Idle
    ensures var q := Run(p, inputs);
            && Ended(q.ctx.stats) == Ended(p.ctx.stats) + Tally(p, inputs, EndsByByte)
            && Tally(p, inputs, Starts)
               == Tally(p, inputs, EndsByByte) + Tally(p, inputs, EndsByReset) + if q.state == Idle then 0 else 1
    decreases |inputs|
  {
    if inputs != [] {
      var front := inputs[..|inputs| - 1];
      AttemptsBalance(p, front);
      var before := Run(p, front);
      match inputs[|inputs| - 1]
      case Put(b) => ByteCounts(before, b);
      case Abort =>
    }
  }

  // ---------------------------------------------------------------- every attempt ends

  predicate EndsWith(inputs: seq<Input>, bytes: seq<Byte>) {
    |bytes| <= |inputs| && inputs[|inputs| - |bytes|..] == Puts(bytes)
  }

  lemma EndsWithOneMore(inputs: seq<Input>, bytes: seq<Byte>, b: Byte)
    requires EndsWith(inputs, bytes)
    ensures EndsWith(inputs + [Put(b)], bytes + [b])
  {
    assert Puts(bytes + [b]) == Puts(bytes) + [Put(b)];
    assert (inputs + [Put(b)])[|inputs| - |bytes|..] == inputs[|inputs| - |bytes|..] + [Put(b)];
  }

  /** The bytes taken are the last bytes of the input, with no reset among them. */
  lemma {:induction false} TakenIsSuffix(p: Parser, inputs: seq<Input>)
    requires Inv(p) && p.state == Idle
    ensures EndsWith(inputs, Run(p, inputs).taken)
    decreases |inputs|
  {
    if inputs != [] {
      var front, input := inputs[..|inputs| - 1], inputs[|inputs| - 1];
      assert inputs == front + [input];
      TakenIsSuffix(p, front);
      SuffixStep(Run(p, front), front, input);
    }
  }

  lemma SuffixStep(p: Parser, front: seq<Input>, input: Input)
    requires Inv(p) && EndsWith(front, p.taken)
    ensures EndsWith(front + [input], Feed(p, input).taken)
  {
    match input
    case Put(b) =>
      ByteCounts(p, b);
      EndsWithOneMore(front, p.taken, b);
    case Abort =>
  }

  /** The parser goes on reading through all the bytes. */
  predicate StaysReading(p: Parser, bytes: seq<Byte>)
    requires Inv(p)
    decreases |bytes|
  {
    bytes == [] || (Feed(p, Put(bytes[0])).state != Idle && StaysReading(Feed(p, Put(bytes[0])), bytes[1..]))
  }

  /** An attempt never takes more than 264 bytes: whatever they are, within 263 bytes of leaving Idle
      the parser is back in it. */
  lemma {:induction false} AttemptsAreShort(p: Parser, bytes: seq<Byte>)
    requires Inv(p) && StaysReading(p, bytes)
    ensures |p.taken| + |bytes| <= 263
    decreases |bytes|
  {
    TakenIsShort(p);
    if bytes != [] {
      ByteCounts(p, bytes[0]);
      AttemptsAreShort(Feed(p, Put(bytes[0])), bytes[1..]);
    }
  }
}
