/** The device half of the upgrade: flash, the session state machine, and the OTA command
    handler, first as functions on values and then as the object that updates in place. */
module OtaDevice {
  import opened Octets
  import opened Crc
  import opened Frames
  import opened OtaWire

  datatype State = Idle | Erasing | Receiving | Verifying | Complete | Error

  datatype Device = Device(flash: seq<Byte>, sector: nat, state: State, total: nat, start: nat, received: nat,
                           expectedCrc: bv16, calcCrc: bv16, eraseOk: bool)

  datatype Event =
    | EvStart(total: nat, start: nat, crc: bv16)
    | EvData(offset: nat, chunk: seq<Byte>)
    | EvEnd
    | EvVerify
    | EvReset
    | EvNone

  // ---------------------------------------------------------------- flash

  /** `flash` with `bytes` stored from `at` on. */
  function Stored(flash: seq<Byte>, at: nat, bytes: seq<Byte>): (r: seq<Byte>)
    requires at + |bytes| <= |flash|
    ensures |r| == |flash|
  {
    flash[..at] + bytes + flash[at + |bytes|..]
  }

  function Blank(n: nat): (r: seq<Byte>)
    ensures |r| == n
  {
    seq(n, (_: nat) => 0xFF)
  }

  /** The start of the sector an address lies in. */
  function Aligned(at: nat, sector: nat): (a: nat)
    requires sector > 0
    ensures a <= at < a + sector
  {
    if at < sector then 0 else sector + Aligned(at - sector, sector)
  }

  datatype Erased = Erased(flash: seq<Byte>, ok: bool)

  /** Erasing the sector an address lies in, if the flash holds it. */
  function EraseOne(flash: seq<Byte>, sector: nat, at: nat): (r: Erased)
    requires sector > 0
    ensures |r.flash| == |flash|
  {
    if Aligned(at, sector) + sector > |flash| then Erased(flash, false)
    else Erased(Stored(flash, Aligned(at, sector), Blank(sector)), true)
  }

  /** Erasing sector after sector from `at` while below `end`; the first failure ends it. */
  function EraseFrom(flash: seq<Byte>, sector: nat, at: nat, end: nat): (r: Erased)
    requires sector > 0
    ensures |r.flash| == |flash|
    decreases end - at
  {
    if at >= end then Erased(flash, true)
    else
      var e := EraseOne(flash, sector, at);
      if !e.ok then e else EraseFrom(e.flash, sector, at + sector, end)
  }

  lemma EraseStep(flash: seq<Byte>, sector: nat, at: nat, end: nat, e: Erased)
    requires sector > 0 && at < end && e == EraseOne(flash, sector, at)
    ensures EraseFrom(flash, sector, at, end) == if !e.ok then e else EraseFrom(e.flash, sector, at + sector, end)
  {
  }

  function CrcOfFlash(flash: seq<Byte>, at: nat, len: nat): bv16 {
    if at + len > |flash| then 0 else Of(flash[at..at + len])
  }

  // ---------------------------------------------------------------- session state machine

  /** Dispatching one event to the handler of the current state, entry actions included. */
  function Dispatch(d: Device, ev: Event): (r: Device)
    requires d.sector > 0
    ensures |r.flash| == |d.flash| && r.sector == d.sector
  {
    match d.state
    case Idle =>
      if ev.EvStart? then
        var e := EraseFrom(d.flash, d.sector, ev.start, ev.start + ev.total);
        d.(state := Erasing, total := ev.total, start := ev.start, expectedCrc := ev.crc, received := 0, calcCrc := 0,
           flash := e.flash, eraseOk := e.ok)
      else d
    case Erasing => d.(state := if d.eraseOk then Receiving else Error)
    case Receiving =>
      if ev.EvData? then
        if ev.offset != d.received || d.start + ev.offset + |ev.chunk| > |d.flash| then d.(state := Error)
        else d.(flash := Stored(d.flash, d.start + ev.offset, ev.chunk), received := d.received + |ev.chunk|)
      else if ev.EvEnd? then
        if d.received != d.total then d.(state := Error)
        else d.(state := Verifying, calcCrc := CrcOfFlash(d.flash, d.start, d.total))
      else d
    case Verifying =>
      if ev.EvVerify? then d.(state := if d.calcCrc == d.expectedCrc then Complete else Error) else d
    case Complete => if ev.EvReset? then d.(state := Idle) else d
    case Error => if ev.EvReset? then d.(state := Idle) else d
  }

  // ---------------------------------------------------------------- OTA commands

  datatype Handled = Handled(device: Device, reply: Message)

  /** The chunk of a DATA frame: what follows its header, of the length the header announces. Behind the
      data the frame buffer holds the zeros it was cleared to. */
  function Chunk(data: seq<Byte>): (c: seq<Byte>)
    requires |data| >= DATA_HEADER
    ensures |c| == Read16(data, 4)
  {
    var n, rest := Read16(data, 4), data[DATA_HEADER..];
    if n <= |rest| then rest[..n] else rest + seq(n - |rest|, (_: nat) => 0)
  }

  /** The chunk is read: the session receives, the chunk is in place and the flash has room for it. */
  predicate ReadsChunk(d: Device, m: Message) {
    && m.cmd == DATA && |m.data| >= DATA_HEADER && d.state == Receiving
    && Read32(m.data, 0) == d.received && d.start + d.received + Read16(m.data, 4) <= |d.flash|
  }

  /** The handler stays inside the frame buffer. */
  predicate Readable(d: Device, m: Message) {
    |m.data| <= MAX_PAYLOAD && (ReadsChunk(d, m) ==> DATA_HEADER + Read16(m.data, 4) <= MAX_PAYLOAD)
  }

  /** The session counters fit the 32-bit fields of a reply. */
  predicate Fits(d: Device) { d.sector > 0 && d.received < 0x1_0000_0000 }

  function Ack(d: Device, cmd: Byte, status: Byte): Message
    requires cmd < ACK_FLAG && Fits(d)
  {
    AckFrame(cmd, status, d.received)
  }

  function StartEvent(data: seq<Byte>): Event
    requires |data| >= START_SIZE
  {
    EvStart(Read32(data, 0), Read32(data, 4), ReadCrc(data, 8))
  }

  function DataEvent(m: Message): Event
    requires |m.data| >= DATA_HEADER
  {
    EvData(Read32(m.data, 0), Chunk(m.data))
  }

  function HandleStart(d: Device, m: Message): Handled
    requires Fits(d)
  {
    if |m.data| < START_SIZE then Handled(d, Ack(d, START, PARAM_ERR))
    else
      var r := Dispatch(Dispatch(d, StartEvent(m.data)), EvNone);
      Handled(r, Ack(r, START, SUCCESS))
  }

  function HandleData(d: Device, m: Message): Handled
    requires Fits(d) && |d.flash| < 0x1_0000_0000
  {
    if |m.data| < DATA_HEADER || Read32(m.data, 0) != d.received then Handled(d, Ack(d, DATA, PARAM_ERR))
    else
      var r := Dispatch(d, DataEvent(m));
      Handled(r, Ack(r, DATA, SUCCESS))
  }

  function HandleEnd(d: Device): Handled
    requires Fits(d)
  {
    if d.received != d.total then Handled(d, Ack(d, END, PARAM_ERR))
    else
      var r := Dispatch(d, EvEnd);
      Handled(r, Ack(r, END, SUCCESS))
  }

  function HandleVerify(d: Device): Handled
    requires Fits(d)
  {
    var r := Dispatch(d, EvVerify);
    Handled(r, VerifyReply(if r.calcCrc == r.expectedCrc then SUCCESS else CRC_ERR, r.calcCrc))
  }

  function HandleOta(d: Device, m: Message): (r: Handled)
    requires Fits(d) && |d.flash| < 0x1_0000_0000
    ensures Fits(r.device) && |r.device.flash| == |d.flash|
  {
    if m.cmd == START then HandleStart(d, m)
    else if m.cmd == DATA then HandleData(d, m)
    else if m.cmd == END then HandleEnd(d)
    else if m.cmd == VERIFY then HandleVerify(d)
    else Handled(d, Message(m.cls, m.cmd, [UNKNOWN]))
  }

  /** The commands that a device refuses: a request that is too short, a chunk out of place, an end before the last
      byte, and what is none of the four commands. */
  predicate Refuses(d: Device, m: Message) {
    match m.cmd
    case 1 => |m.data| < 10
    case 2 => |m.data| < 6 || Read32(m.data, 0) != d.received
    case 3 => d.received != d.total
    case 4 => false
    case _ => true
  }

  /** A refusal changes nothing, and says what is wrong: status 2 with the size received, or status 1 for a command that
      is not known. Everything else is answered with status 0, only the verdict with 3 if the CRCs disagree. */
  lemma RefusalChangesNothing(d: Device, m: Message)
    requires Fits(d) && |d.flash| < 0x1_0000_0000
    ensures var r := HandleOta(d, m);
            if Refuses(d, m) then
              && r.device == d
              && r.reply == (if 1 <= m.cmd <= 3 then AckFrame(m.cmd, 2, d.received) else Message(m.cls, m.cmd, [1]))
            else if m.cmd == 4 then
              r.reply == VerifyReply(if r.device.calcCrc == r.device.expectedCrc then 0 else 3, r.device.calcCrc)
            else r.reply == AckFrame(m.cmd, 0, r.device.received)
  {
  }

  /** A session fails exactly if erasing failed, if a chunk is out of place or does not fit, if it is ended with another
      size than it began with, or if the CRCs disagree when it is verified. */
  lemma SessionFailsIff(d: Device, ev: Event)
    requires d.sector > 0 && d.state != Error
    ensures Dispatch(d, ev).state == Error <==>
            || (d.state == Erasing && !d.eraseOk)
            || (d.state == Receiving && ev.EvData?
                && (ev.offset != d.received || d.start + ev.offset + |ev.chunk| > |d.flash|))
            || (d.state == Receiving && ev == EvEnd && d.received != d.total)
            || (d.state == Verifying && ev == EvVerify && d.calcCrc != d.expectedCrc)
  {
  }

  /** A chunk that its frame does not hold completely is filled up with the zeros behind the data. */
  lemma ChunkIsPadded(data: seq<Byte>, i: nat)
    requires |data| >= 6 && i < Read16(data, 4)
    ensures Chunk(data)[i] == if 6 + i < |data| then data[6 + i] else 0
  {
  }

  /** A session that has ended stays as it is until a reset makes the device idle. */
  lemma OnlyResetEnds(d: Device, ev: Event)
    requires d.sector > 0 && (d.state == Complete || d.state == Error)
    ensures Dispatch(d, ev) == if ev == EvReset then d.(state := Idle) else d
  {
  }

  // ---------------------------------------------------------------- the object

  class DeviceHandler {
    const crcTable: array<bv16>
    const flash: array<Byte>
    const sector: nat
    var state: State
    var total: nat
    var start: nat
    var received: nat
    var expectedCrc: bv16
    var calcCrc: bv16
    var eraseOk: bool

    ghost function View(): Device
      reads this, flash
    {
      Device(flash[..], sector, state, total, start, received, expectedCrc, calcCrc, eraseOk)
    }

    ghost predicate Valid()
      reads this, flash, crcTable
    {
      && IsTable(crcTable) && crcTable as object != flash
      && Fits(View()) && flash.Length < 0x1_0000_0000
    }

    constructor (table: array<bv16>, flashSize: nat, sectorSize: nat)
      requires IsTable(table) && sectorSize > 0 && flashSize < 0x1_0000_0000
      ensures Valid() && fresh(flash)
      ensures View() == Device(Blank(flashSize), sectorSize, Idle, 0, 0, 0, 0, 0, true)
    {
      crcTable := table;
      flash := new Byte[flashSize](_ => 0xFF);
      sector := sectorSize;
      state := Idle;
      total, start, received, expectedCrc, calcCrc, eraseOk := 0, 0, 0, 0, 0, true;
    }

    /** Bytes copied into flash. */
    method Store(at: nat, bytes: seq<Byte>)
      requires at + |bytes| <= flash.Length
      modifies flash
      ensures flash[..] == Stored(old(flash[..]), at, bytes)
    {
      CopyInto(flash, at, bytes);
      assert flash[..] == flash[..at] + flash[at..at + |bytes|] + flash[at + |bytes|..];
    }

    method Write(at: nat, bytes: seq<Byte>) returns (ok: bool)
      modifies flash
      ensures ok == (at + |bytes| <= flash.Length)
      ensures flash[..] == if ok then Stored(old(flash[..]), at, bytes) else old(flash[..])
    {
      if at + |bytes| > flash.Length {
        return false;
      }
      Store(at, bytes);
      return true;
    }

    method EraseSector(at: nat) returns (ok: bool)
      requires sector > 0
      modifies flash
      ensures Erased(flash[..], ok) == EraseOne(old(flash[..]), sector, at)
    {
      var aligned := Aligned(at, sector);
      if aligned + sector > flash.Length {
        return false;
      }
      Store(aligned, seq(sector, (_: nat) => 0xFF));
      return true;
    }

    /** One turn of the erase loop, on the way to `goal`. */
    method EraseTurn(a: nat, end: nat, ghost goal: Erased) returns (ok: bool)
      requires sector > 0 && a < end && EraseFrom(flash[..], sector, a, end) == goal
      modifies flash
      ensures goal == if ok then EraseFrom(flash[..], sector, a + sector, end) else Erased(flash[..], false)
    {
      ghost var before := flash[..];
      ok := EraseSector(a);
      EraseStep(before, sector, a, end, Erased(flash[..], ok));
    }

    /** Sector after sector from `from` on, up to the first that fails. */
    method EraseSectors(from: nat, end: nat, ghost goal: Erased) returns (ok: bool)
      requires sector > 0 && EraseFrom(flash[..], sector, from, end) == goal
      modifies flash
      ensures goal == Erased(flash[..], ok)
    {
      var a := from;
      ok := true;
      while ok && a < end
        invariant goal == if ok then EraseFrom(flash[..], sector, a, end) else Erased(flash[..], false)
        decreases ok, end - a
      {
        ok := EraseTurn(a, end, goal);
        a := a + sector;
      }
    }

    /** The erase loop run on entry to Erasing. */
    method EraseRegion()
      requires sector > 0 && eraseOk
      modifies flash, this`eraseOk
      ensures Erased(flash[..], eraseOk) == EraseFrom(old(flash[..]), sector, start, start + total)
    {
      eraseOk := EraseSectors(start, start + total, EraseFrom(flash[..], sector, start, start + total));
    }

    method OnIdle(ev: Event)
      requires Valid() && state.Idle?
      modifies this, flash
      ensures View() == Dispatch(old(View()), ev)
    {
      if ev.EvStart? {
        total := ev.total;
        start := ev.start;
        expectedCrc := ev.crc;
        received := 0;
        calcCrc := 0;
        eraseOk := true;
        state := Erasing;
        EraseRegion();
      }
    }

    method OnReceiving(ev: Event)
      requires Valid() && state.Receiving?
      modifies this, flash
      ensures View() == Dispatch(old(View()), ev)
    {
      if ev.EvData? {
        if ev.offset != received {
          state := Error;
          return;
        }
        var ok := Write(start + ev.offset, ev.chunk);
        if !ok {
          state := Error;
          return;
        }
        received := received + |ev.chunk|;
      } else if ev.EvEnd? {
        if received != total {
          state := Error;
          return;
        }
        state := Verifying;
        EnterVerifying();
      }
    }

    method EnterVerifying()
      requires IsTable(crcTable)
      modifies this`calcCrc
      ensures calcCrc == CrcOfFlash(flash[..], start, total)
    {
      if start + total > flash.Length {
        calcCrc := 0;
      } else {
        calcCrc := Calc(crcTable, flash[start..start + total]);
        assert flash[start..start + total] == flash[..][start..start + total];
      }
    }

    /** One event through the state machine. */
    method DoDispatch(ev: Event)
      requires Valid()
      modifies this, flash
      ensures View() == Dispatch(old(View()), ev)
    {
      match state {
        case Idle => OnIdle(ev);
        case Erasing => state := if eraseOk then Receiving else Error;
        case Receiving => OnReceiving(ev);
        case Verifying =>
          if ev.EvVerify? {
            state := if calcCrc == expectedCrc then Complete else Error;
          }
        case _ =>
          if ev.EvReset? {
            state := Idle;
          }
      }
    }

    /** A START request: the second, empty event takes the machine out of Erasing. */
    method DoHandleStart(m: Message) returns (reply: Message)
      requires Valid()
      modifies this, flash
      ensures Valid() && Handled(View(), reply) == HandleStart(old(View()), m)
    {
      if |m.data| < START_SIZE {
        return AckFrame(START, PARAM_ERR, received);
      }
      DoDispatch(StartEvent(m.data));
      DoDispatch(EvNone);
      return AckFrame(START, SUCCESS, received);
    }

    /** An OTA command: the new state and the reply are those of the handler function. */
    method DoHandleOta(m: Message) returns (reply: Message)
      requires Valid() && Readable(View(), m)
      modifies this, flash
      ensures Valid() && Handled(View(), reply) == HandleOta(old(View()), m)
    {
      if m.cmd == START {
        reply := DoHandleStart(m);
      } else if m.cmd == DATA {
        if |m.data| < DATA_HEADER || Read32(m.data, 0) != received {
          return AckFrame(DATA, PARAM_ERR, received);
        }
        DoDispatch(DataEvent(m));
        return AckFrame(DATA, SUCCESS, received);
      } else if m.cmd == END {
        if received != total {
          return AckFrame(END, PARAM_ERR, received);
        }
        DoDispatch(EvEnd);
        return AckFrame(END, SUCCESS, received);
      } else if m.cmd == VERIFY {
        DoDispatch(EvVerify);
        return VerifyReply(if calcCrc == expectedCrc then SUCCESS else CRC_ERR, calcCrc);
      } else {
        return Message(m.cls, m.cmd, [UNKNOWN]);
      }
    }
  }
}
