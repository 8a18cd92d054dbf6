/** The byte-level frame parser: its context, row guards, row actions and transition
    table, the table scan, and the machine the table stands for. */
module Parser {
  import opened Options
  import opened Octets
  import opened Crc
  import opened Frames

  datatype State = Idle | LenLo | LenHi | CmdClass | Cmd | Data | CrcLo | CrcHi | Tail

  datatype Event = GotByte | Reset | Timeout

  datatype Frame = Frame(cls: Byte, cmd: Byte, dataLen: nat, data: seq<Byte>, crc: bv16)

  datatype Stats = Stats(bytes: nat, frames: nat, sync: nat, crc: nat, tail: nat, length: nat)

  /** `delivered` is the log of the frames handed to the callback. */
  datatype Context = Context(byte: Byte, frame: Frame, expectedLen: nat, payloadIndex: nat, runningCrc: bv16,
                             stats: Stats, delivered: seq<Message>)

  /** `taken` is history: the bytes of the frame being read, from its header on. */
  datatype Parser = Parser(state: State, ctx: Context, taken: seq<Byte>)

  // ---------------------------------------------------------------- row guards

  datatype Guard = NoGuard | IsHeader | LenValid | HasPayload | PayloadDone | NotTail | TailBadCrc | CrcOk

  /** The length field once the pending high byte is joined to the low byte. */
  function FullLength(c: Context): nat { c.expectedLen + 256 * c.byte }

  predicate Passes(guard: Guard, c: Context) {
    match guard
    case NoGuard => true
    case IsHeader => c.byte == HEADER
    case LenValid => 2 <= FullLength(c) && FullLength(c) - 2 <= MAX_PAYLOAD
    case HasPayload => c.expectedLen > 2
    case PayloadDone => c.payloadIndex + 1 >= c.expectedLen
    case NotTail => c.byte != TAIL
    case TailBadCrc => c.byte == TAIL && c.runningCrc != c.frame.crc
    case CrcOk => c.runningCrc == c.frame.crc
  }

  // ---------------------------------------------------------------- row actions

  datatype Action =
    NoAction | StartFrame | SyncError | StoreLenLo | StoreLenHi | LengthError | StoreCmdClass | StoreCmd |
    StoreData | StoreCrcLo | StoreCrcHi | TailError | CrcError | FrameOk

  function Zeros(n: nat): seq<Byte> { seq(n, (_: nat) => 0) }

  function NoFrame(): Frame { Frame(0, 0, 0, Zeros(MAX_PAYLOAD), 0) }

  /** The data store stays inside the payload buffer, and a frame handed over has its data there. */
  predicate Safe(action: Action, c: Context) {
    && |c.frame.data| == MAX_PAYLOAD
    && (action.StoreData? ==> 2 <= c.payloadIndex < MAX_PAYLOAD + 2)
    && (action.StoreLenHi? ==> 2 <= FullLength(c))
    && (action.FrameOk? ==> c.frame.dataLen <= MAX_PAYLOAD)
  }

  /** The current byte folded into the running CRC. */
  function Folded(c: Context): Context {
    c.(runningCrc := Update(c.runningCrc, c.byte), payloadIndex := c.payloadIndex + 1)
  }

  function Perform(action: Action, c: Context): (r: Context)
    requires Safe(action, c)
    ensures |r.frame.data| == MAX_PAYLOAD
  {
    match action
    case NoAction => c
    case StartFrame => c.(frame := NoFrame(), expectedLen := 0, payloadIndex := 0, runningCrc := 0)
    case SyncError => c.(stats := c.stats.(sync := c.stats.sync + 1))
    case StoreLenLo => c.(expectedLen := c.byte)
    case StoreLenHi => c.(expectedLen := FullLength(c), frame := c.frame.(dataLen := FullLength(c) - 2))
    case LengthError => c.(stats := c.stats.(length := c.stats.length + 1))
    case StoreCmdClass => Folded(c.(frame := c.frame.(cls := c.byte)))
    case StoreCmd => Folded(c.(frame := c.frame.(cmd := c.byte)))
    case StoreData => Folded(c.(frame := c.frame.(data := c.frame.data[c.payloadIndex - 2 := c.byte])))
    case StoreCrcLo => c.(frame := c.frame.(crc := Joined(c.byte, 0)))
    case StoreCrcHi => c.(frame := c.frame.(crc := WithHigh(c.frame.crc, c.byte)))
    case TailError => c.(stats := c.stats.(tail := c.stats.tail + 1))
    case CrcError => c.(stats := c.stats.(crc := c.stats.crc + 1))
    case FrameOk =>
      c.(stats := c.stats.(frames := c.stats.frames + 1),
         delivered := c.delivered + [Message(c.frame.cls, c.frame.cmd, c.frame.data[..c.frame.dataLen])])
  }

  // ---------------------------------------------------------------- transition table

  datatype Row = Row(from: State, event: Event, to: State, internal: bool, action: Action, guard: Guard)

  /** The rows of a state. */
  function RowsOf(state: State): seq<Row> { ByteRows(state) + EndRows(state) }

  function ByteRows(state: State): seq<Row> {
    match state
    case Idle => [
      Row(Idle, GotByte, LenLo, false, StartFrame, IsHeader),
      Row(Idle, GotByte, Idle, true, SyncError, NoGuard)]
    case LenLo => [
      Row(LenLo, GotByte, LenHi, false, StoreLenLo, NoGuard)]
    case LenHi => [
      Row(LenHi, GotByte, CmdClass, false, StoreLenHi, LenValid),
      Row(LenHi, GotByte, Idle, false, LengthError, NoGuard)]
    case CmdClass => [
      Row(CmdClass, GotByte, Cmd, false, StoreCmdClass, NoGuard)]
    case Cmd => [
      Row(Cmd, GotByte, Data, false, StoreCmd, HasPayload),
      Row(Cmd, GotByte, CrcLo, false, StoreCmd, NoGuard)]
    case Data => [
      Row(Data, GotByte, CrcLo, false, StoreData, PayloadDone),
      Row(Data, GotByte, Data, true, StoreData, NoGuard)]
    case CrcLo => [
      Row(CrcLo, GotByte, CrcHi, false, StoreCrcLo, NoGuard)]
    case CrcHi => [
      Row(CrcHi, GotByte, Tail, false, StoreCrcHi, NoGuard)]
    case Tail => [
      Row(Tail, GotByte, Idle, false, TailError, NotTail),
      Row(Tail, GotByte, Idle, false, CrcError, TailBadCrc),
      Row(Tail, GotByte, Idle, false, FrameOk, CrcOk)]
  }

  /** Reset and timeout lead back to Idle from every state. */
  function EndRows(state: State): seq<Row> {
    [Row(state, Reset, Idle, false, NoAction, NoGuard), Row(state, Timeout, Idle, false, NoAction, NoGuard)]
  }

  const STATES: seq<State> := [Idle, LenLo, LenHi, CmdClass, Cmd, Data, CrcLo, CrcHi, Tail]

  /** The transition table, state after state. */
  function Table(states: seq<State>): seq<Row> {
    if states == [] then [] else RowsOf(states[0]) + Table(states[1..])
  }

  predicate Fires(row: Row, state: State, event: Event, c: Context) {
    row.from == state && row.event == event && Passes(row.guard, c)
  }

  /** Rows are scanned in order; the first row of the state and event whose guard passes fires. */
  function Find(rows: seq<Row>, state: State, event: Event, c: Context): Option<Row> {
    if rows == [] then None
    else if Fires(rows[0], state, event, c) then Some(rows[0])
    else Find(rows[1..], state, event, c)
  }

  // ---------------------------------------------------------------- what the table stands for

  datatype Move = Move(action: Action, to: State)

  /** An internal row runs its action and stays; an external one goes to its target. */
  function MoveBy(row: Row, state: State): Move { Move(row.action, if row.internal then state else row.to) }

  /** The move on a byte, state by state. */
  function ByteMove(state: State, c: Context): Move {
    match state
    case Idle => if c.byte == HEADER then Move(StartFrame, LenLo) else Move(SyncError, Idle)
    case LenLo => Move(StoreLenLo, LenHi)
    case LenHi => if 2 <= FullLength(c) <= MAX_PAYLOAD + 2 then Move(StoreLenHi, CmdClass) else Move(LengthError, Idle)
    case CmdClass => Move(StoreCmdClass, Cmd)
    case Cmd => Move(StoreCmd, if c.expectedLen > 2 then Data else CrcLo)
    case Data => Move(StoreData, if c.payloadIndex + 1 >= c.expectedLen then CrcLo else Data)
    case CrcLo => Move(StoreCrcLo, CrcHi)
    case CrcHi => Move(StoreCrcHi, Tail)
    case Tail =>
      Move(if c.byte != TAIL then TailError else if c.runningCrc != c.frame.crc then CrcError else FrameOk, Idle)
  }

  function MoveOf(state: State, event: Event, c: Context): Move {
    if event == GotByte then ByteMove(state, c) else Move(NoAction, Idle)
  }

  lemma {:induction false} FindInFront(front: seq<Row>, rest: seq<Row>, state: State, event: Event, c: Context)
    ensures Find(front + rest, state, event, c)
         == if Find(front, state, event, c).Some? then Find(front, state, event, c) else Find(rest, state, event, c)
  {
    if front == [] {
      assert front + rest == rest;
    } else {
      assert (front + rest)[1..] == front[1..] + rest;
      FindInFront(front[1..], rest, state, event, c);
    }
  }

  lemma {:induction false} NoRow(rows: seq<Row>, state: State, event: Event, c: Context)
    requires forall row :: row in rows ==> row.from != state
    ensures Find(rows, state, event, c).None?
  {
    if rows != [] {
      NoRow(rows[1..], state, event, c);
    }
  }

  lemma OwnRows(state: State)
    ensures forall row :: row in RowsOf(state) ==> row.from == state
  {
    assert forall row :: row in ByteRows(state) ==> row.from == state;
    assert forall row :: row in EndRows(state) ==> row.from == state;
  }

  lemma FindOfOne(a: Row, state: State, event: Event, c: Context)
    ensures Find([a], state, event, c) == if Fires(a, state, event, c) then Some(a) else None
  {
  }

  lemma FindOfTwo(a: Row, b: Row, state: State, event: Event, c: Context)
    ensures Find([a, b], state, event, c) ==
            if Fires(a, state, event, c) then Some(a) else Find([b], state, event, c)
  {
    assert [a, b][1..] == [b];
  }

  lemma FindOfThree(x: Row, a: Row, b: Row, state: State, event: Event, c: Context)
    ensures Find([x, a, b], state, event, c) ==
            if Fires(x, state, event, c) then Some(x) else Find([a, b], state, event, c)
  {
    assert [x, a, b][1..] == [a, b];
  }

  lemma ByteRowsMove(state: State, c: Context)
    ensures var found := Find(ByteRows(state), state, GotByte, c);
            found.Some? && MoveBy(found.value, state) == ByteMove(state, c)
  {
    var rows := ByteRows(state);
    FindOfOne(rows[|rows| - 1], state, GotByte, c);
    if |rows| > 1 {
      FindOfTwo(rows[|rows| - 2], rows[|rows| - 1], state, GotByte, c);
    }
    if |rows| > 2 {
      FindOfThree(rows[0], rows[1], rows[2], state, GotByte, c);
    }
  }

  lemma {:induction false} NoByteRow(rows: seq<Row>, state: State, event: Event, c: Context)
    requires forall row :: row in rows ==> row.event != event
    ensures Find(rows, state, event, c).None?
  {
    if rows != [] {
      NoByteRow(rows[1..], state, event, c);
    }
  }

  lemma EndRowsMove(state: State, event: Event, c: Context)
    requires event != GotByte
    ensures var found := Find(EndRows(state), state, event, c);
            found.Some? && MoveBy(found.value, state) == Move(NoAction, Idle)
  {
    var rows := EndRows(state);
    FindOfTwo(rows[0], rows[1], state, event, c);
    FindOfOne(rows[1], state, event, c);
  }

  /** In its own rows, the scan finds the move of the machine. */
  lemma OwnMove(state: State, event: Event, c: Context)
    ensures var found := Find(RowsOf(state), state, event, c);
            found.Some? && MoveBy(found.value, state) == MoveOf(state, event, c)
  {
    FindInFront(ByteRows(state), EndRows(state), state, event, c);
    if event == GotByte {
      ByteRowsMove(state, c);
    } else {
      assert forall row :: row in ByteRows(state) ==> row.event == GotByte;
      NoByteRow(ByteRows(state), state, event, c);
      EndRowsMove(state, event, c);
    }
  }

  lemma {:induction false} FindInTable(states: seq<State>, state: State, event: Event, c: Context)
    requires state in states
    ensures Find(Table(states), state, event, c) == Find(RowsOf(state), state, event, c)
  {
    var rows := RowsOf(states[0]);
    FindInFront(rows, Table(states[1..]), state, event, c);
    if states[0] == state {
      OwnMove(state, event, c);
    } else {
      OwnRows(states[0]);
      NoRow(rows, state, event, c);
      FindInTable(states[1..], state, event, c);
    }
  }

  /** The scan of the table finds exactly the move of the machine, whatever the state and context. */
  lemma TableIsMachine(state: State, event: Event, c: Context)
    ensures var found := Find(Table(STATES), state, event, c);
            found.Some? && MoveBy(found.value, state) == MoveOf(state, event, c)
  {
    assert state in STATES;
    FindInTable(STATES, state, event, c);
    OwnMove(state, event, c);
  }

  // ---------------------------------------------------------------- one event

  /** Dispatching an event: the move's action, then its target state. */
  function Handle(p: Parser, event: Event): Parser
    requires Safe(MoveOf(p.state, event, p.ctx).action, p.ctx)
  {
    var move := MoveOf(p.state, event, p.ctx);
    Parser(move.to, Perform(move.action, p.ctx), if move.to == Idle then [] else p.taken + [p.ctx.byte])
  }

  function Loaded(c: Context, b: Byte): Context {
    c.(byte := b, stats := c.stats.(bytes := c.stats.bytes + 1))
  }
}
