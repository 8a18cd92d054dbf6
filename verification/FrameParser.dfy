/** The parser object: its fields updated in place by the row actions, driven by the table scan. */
module FrameParser {
  import opened Options
  import opened Octets
  import opened Crc
  import opened Frames
  import opened Parser
  import opened ParserSafety
  import opened ParserRuns

  /** The scan of a transition table. */
  method FindTransition(rows: seq<Row>, state: State, event: Event, c: Context) returns (found: Option<Row>)
    ensures found == Find(rows, state, event, c)
  {
    for i := 0 to |rows|
      invariant Find(rows[i..], state, event, c) == Find(rows, state, event, c)
    {
      assert rows[i..][1..] == rows[i + 1..];
      if Fires(rows[i], state, event, c) {
        return Some(rows[i]);
      }
    }
    return None;
  }

  lemma ByteStays(action: Action, c: Context)
    requires Safe(action, c)
    ensures Perform(action, c).byte == c.byte
  {
  }

  /** What bytes leave before the start: the last of them, and their number in the statistics. */
  function Skipped(c: Context, bytes: seq<Byte>): Context {
    if bytes == [] then c
    else c.(byte := bytes[|bytes| - 1], stats := c.stats.(bytes := c.stats.bytes + |bytes|))
  }

  /** The parser after the bytes. Before the start they are only counted. */
  function Given(p: Parser, started: bool, bytes: seq<Byte>): Parser
    requires Inv(p)
  {
    if started then RunBytes(p, bytes) else p.(ctx := Skipped(p.ctx, bytes))
  }

  lemma GivenNone(p: Parser, started: bool)
    requires Inv(p)
    ensures Given(p, started, []) == p
  {
    assert Puts([]) == [];
  }

  lemma SkippedNext(c: Context, bytes: seq<Byte>, i: nat)
    requires i < |bytes|
    ensures Skipped(c, bytes[..i + 1]) == Loaded(Skipped(c, bytes[..i]), bytes[i])
  {
  }

  lemma GivenNext(p: Parser, started: bool, bytes: seq<Byte>, i: nat)
    requires Inv(p) && i < |bytes|
    ensures var q := Given(p, started, bytes[..i]);
            && (started ==> Inv(q))
            && Given(p, started, bytes[..i + 1])
               == if started then ParserSafety.PutByte(q, bytes[i]) else q.(ctx := Loaded(q.ctx, bytes[i]))
  {
    if started {
      RunNextByte(p, bytes, i);
    } else {
      SkippedNext(p.ctx, bytes, i);
    }
  }

  class FrameParser {
    const crcTable: array<bv16>
    const data: array<Byte>
    var started: bool
    var state: State
    var byte: Byte
    var cls: Byte
    var cmd: Byte
    var dataLen: nat
    var crc: bv16
    var expectedLen: nat
    var payloadIndex: nat
    var runningCrc: bv16
    var stats: Stats
    var delivered: seq<Message>
    ghost var taken: seq<Byte>

    function Ctx(): Context
      reads this, data
    {
      Context(byte, Frame(cls, cmd, dataLen, data[..], crc), expectedLen, payloadIndex, runningCrc, stats, delivered)
    }

    ghost function View(): Parser
      reads this, data
    {
      Parser(state, Ctx(), taken)
    }

    ghost predicate HasTable()
      reads crcTable
    {
      IsTable(crcTable) && crcTable as object != data
    }

    ghost predicate Valid()
      reads this, data, crcTable
    {
      HasTable() && Inv(View())
    }

    constructor (table: array<bv16>)
      requires IsTable(table)
      ensures Valid() && fresh(data) && crcTable == table && !started && state == Idle
      ensures stats == Stats(0, 0, 0, 0, 0, 0) && delivered == []
    {
      crcTable := table;
      data := new Byte[MAX_PAYLOAD];
      started := false;
      state := Idle;
      byte, cls, cmd, dataLen, crc := 0, 0, 0, 0, 0;
      expectedLen, payloadIndex, runningCrc := 0, 0, 0;
      stats := Stats(0, 0, 0, 0, 0, 0);
      delivered := [];
      taken := [];
    }

    method Start()
      requires Valid()
      modifies this
      ensures Valid() && started && View() == old(View())
    {
      started := true;
    }

    method ClearData()
      modifies data
      ensures data[..] == Zeros(data.Length)
    {
      for i := 0 to data.Length
        invariant forall k :: 0 <= k < i ==> data[k] == 0
      {
        data[i] := 0;
      }
    }

    method Fold()
      requires HasTable()
      modifies this`runningCrc, this`payloadIndex
      ensures Ctx() == Folded(old(Ctx()))
    {
      runningCrc := TableUpdate(crcTable, runningCrc, byte);
      payloadIndex := payloadIndex + 1;
    }

    /** The fields no row action touches. */
    ghost predicate Rest(state': State, taken': seq<Byte>, started': bool)
      reads this
    {
      state == state' && taken == taken' && started == started'
    }

    method ActStartFrame()
      requires data.Length == MAX_PAYLOAD
      modifies this, data
      ensures Ctx() == Perform(StartFrame, old(Ctx()))
      ensures Rest(old(state), old(taken), old(started))
    {
      ClearData();
      cls, cmd, dataLen, crc := 0, 0, 0, 0;
      expectedLen, payloadIndex, runningCrc := 0, 0, 0;
    }

    method ActStoreLength(action: Action)
      requires (action.StoreLenLo? || action.StoreLenHi?) && Safe(action, Ctx())
      modifies this
      ensures Ctx() == Perform(action, old(Ctx()))
      ensures Rest(old(state), old(taken), old(started))
    {
      if action.StoreLenLo? {
        expectedLen := byte;
      } else {
        expectedLen := expectedLen + 256 * byte;
        dataLen := expectedLen - 2;
      }
    }

    /** The class byte is stored and folded into the running CRC, */
    method ActStoreCmdClass()
      requires Safe(StoreCmdClass, Ctx()) && HasTable()
      modifies this
      ensures Ctx() == Perform(StoreCmdClass, old(Ctx()))
      ensures Rest(old(state), old(taken), old(started))
    {
      ghost var c := Ctx();
      cls := byte;
      assert Ctx() == c.(frame := c.frame.(cls := c.byte));
      Fold();
    }

    /** so is the command byte, */
    method ActStoreCmd()
      requires Safe(StoreCmd, Ctx()) && HasTable()
      modifies this
      ensures Ctx() == Perform(StoreCmd, old(Ctx()))
      ensures Rest(old(state), old(taken), old(started))
    {
      ghost var c := Ctx();
      cmd := byte;
      assert Ctx() == c.(frame := c.frame.(cmd := c.byte));
      Fold();
    }

    /** and so are data bytes. */
    method ActStoreData()
      requires Safe(StoreData, Ctx()) && HasTable()
      modifies this, data
      ensures Ctx() == Perform(StoreData, old(Ctx()))
      ensures Rest(old(state), old(taken), old(started))
    {
      ghost var c := Ctx();
      data[payloadIndex - 2] := byte;
      assert Ctx() == c.(frame := c.frame.(data := c.frame.data[c.payloadIndex - 2 := c.byte]));
      Fold();
    }

    method ActStoreCrc(action: Action)
      requires (action.StoreCrcLo? || action.StoreCrcHi?) && Safe(action, Ctx())
      modifies this
      ensures Ctx() == Perform(action, old(Ctx()))
      ensures Rest(old(state), old(taken), old(started))
    {
      if action.StoreCrcLo? {
        crc := Joined(byte, 0);
      } else {
        crc := WithHigh(crc, byte);
      }
    }

    /** The actions that count an outcome; a good frame also goes to the callback. */
    method ActCount(action: Action)
      requires (Ends(action) || action.SyncError?) && Safe(action, Ctx())
      modifies this
      ensures Ctx() == Perform(action, old(Ctx()))
      ensures Rest(old(state), old(taken), old(started))
    {
      match action {
        case SyncError => stats := stats.(sync := stats.sync + 1);
        case LengthError => stats := stats.(length := stats.length + 1);
        case TailError => stats := stats.(tail := stats.tail + 1);
        case CrcError => stats := stats.(crc := stats.crc + 1);
        case FrameOk =>
          stats := stats.(frames := stats.frames + 1);
          delivered := delivered + [Message(cls, cmd, data[..dataLen])];
      }
    }

    /** A row action changes the context as its function says, and nothing else. */
    method Act(action: Action)
      requires HasTable() && Safe(action, Ctx())
      modifies this, data
      ensures Ctx() == Perform(action, old(Ctx()))
      ensures Rest(old(state), old(taken), old(started))
    {
      match action {
        case NoAction =>
        case StartFrame => ActStartFrame();
        case StoreLenLo => ActStoreLength(action);
        case StoreLenHi => ActStoreLength(action);
        case StoreCmdClass => ActStoreCmdClass();
        case StoreCmd => ActStoreCmd();
        case StoreData => ActStoreData();
        case StoreCrcLo => ActStoreCrc(action);
        case StoreCrcHi => ActStoreCrc(action);
        case _ => ActCount(action);
      }
    }

    /** Dispatching an event: nothing before the start, afterwards the row the scan finds. */
    method Dispatch(event: Event)
      requires HasTable() && Safe(MoveOf(state, event, Ctx()).action, Ctx())
      modifies this, data
      ensures started == old(started)
      ensures started ==> View() == old(Handle(View(), event))
      ensures !started ==> View() == old(View())
    {
      if !started {
        return;
      }
      var row := NextRow(event);
      Apply(row);
    }

    /** A row that fires: its action, then its target unless it is internal. */
    method Apply(row: Row)
      requires HasTable() && Safe(row.action, Ctx())
      modifies this, data
      ensures started == old(started)
      ensures var to := MoveBy(row, old(state)).to;
              View() == Parser(to, Perform(row.action, old(Ctx())), if to == Idle then [] else old(taken) + [old(byte)])
    {
      ByteStays(row.action, Ctx());
      Act(row.action);
      if !row.internal {
        state := row.to;
      }
      taken := if state == Idle then [] else taken + [byte];
    }

    method NextRow(event: Event) returns (row: Row)
      ensures MoveBy(row, state) == MoveOf(state, event, Ctx())
    {
      TableIsMachine(state, event, Ctx());
      var found := FindTransition(Table(STATES), state, event, Ctx());
      return found.value;
    }

    method Load(b: Byte)
      modifies this
      ensures View() == old(View()).(ctx := Loaded(old(Ctx()), b)) && started == old(started)
    {
      byte := b;
      stats := stats.(bytes := stats.bytes + 1);
    }

    /** A byte arrives. Before the start it is only counted. */
    method PutByte(b: Byte)
      requires Valid()
      modifies this, data
      ensures Valid() && started == old(started)
      ensures started ==> View() == ParserSafety.PutByte(old(View()), b)
      ensures !started ==> View() == old(View()).(ctx := Loaded(old(Ctx()), b))
    {
      ghost var p := View();
      LoadedKeeps(p, b);
      Load(b);
      Dispatch(GotByte);
      PutByteKeeps(p, b);
    }

    /** All the bytes in turn. */
    method PutData(bytes: seq<Byte>)
      requires Valid()
      modifies this, data
      ensures Valid() && started == old(started)
      ensures View() == Given(old(View()), started, bytes)
    {
      ghost var p := View();
      GivenNone(p, started);
      assert bytes[..0] == [];
      for i := 0 to |bytes|
        invariant Valid() && started == old(started) && View() == Given(p, started, bytes[..i])
      {
        GivenNext(p, started, bytes, i);
        PutByte(bytes[i]);
      }
      assert bytes[..|bytes|] == bytes;
    }

    method DoReset()
      requires Valid()
      modifies this, data
      ensures Valid() && started == old(started)
      ensures View() == if started then Feed(old(View()), Abort) else old(View())
    {
      Dispatch(Reset);
    }
  }
}
