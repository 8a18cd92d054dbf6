/** What an upgrade makes of a device, whatever state it starts in: the session after START, and the
    states the frames of one host can take it to from there. */
module OtaTrack {
  import opened Octets
  import opened Frames
  import opened OtaWire
  import opened OtaLink
  import H = OtaHost
  import D = OtaDevice

  // ---------------------------------------------------------------- after START

  /** The device once it has handled START: an idle one begins a session, any other stays in its own. */
  function Started(d: D.Device, plan: H.Plan): (b: D.Device)
    requires DeviceFits(d)
    ensures DeviceFits(b) && |b.flash| == |d.flash| && b.state != D.Idle && b.state != D.Erasing
    ensures d.state != D.Idle ==> b == if d.state != D.Erasing then d else d.(state := b.state)
  {
    D.Dispatch(D.Dispatch(d, D.EvStart(|plan.fw|, plan.start, plan.crc)), D.EvNone)
  }

  lemma StartHandled(d: D.Device, plan: H.Plan)
    requires H.Valid(plan) && DeviceFits(d)
    ensures var m, b := StartFrame(|plan.fw|, plan.start, plan.crc), Started(d, plan);
            Contained(m) && D.HandleOta(d, m) == D.Handled(b, AckFrame(START, SUCCESS, b.received))
  {
    StartRoundTrip(|plan.fw|, plan.start, plan.crc);
  }

  // ---------------------------------------------------------------- the way of a session

  /** Chunk after chunk of the firmware, from `k` on, leads to exactly `r` received bytes. */
  predicate Leads(b: D.Device, plan: H.Plan, k: nat, r: nat)
    requires H.Valid(plan)
    decreases |plan.fw| - k
  {
    k == r || (k < |plan.fw| && b.start + k + H.LenAt(plan, k) <= |b.flash| && Leads(b, plan, k + H.LenAt(plan, k), r))
  }

  lemma {:induction false} LeadsOn(b: D.Device, plan: H.Plan, k: nat, r: nat)
    requires H.Valid(plan) && Leads(b, plan, k, r)
    requires r < |plan.fw| && b.start + r + H.LenAt(plan, r) <= |b.flash|
    ensures Leads(b, plan, k, r + H.LenAt(plan, r))
    decreases |plan.fw| - k
  {
    if k != r {
      LeadsOn(b, plan, k + H.LenAt(plan, k), r);
    }
  }

  lemma {:induction false} LeadsBound(b: D.Device, plan: H.Plan, k: nat, r: nat)
    requires H.Valid(plan) && Leads(b, plan, k, r)
    ensures k <= r && (k < r ==> r <= |plan.fw| && b.start + r <= |b.flash|)
    decreases |plan.fw| - k
  {
    if k != r {
      LeadsBound(b, plan, k + H.LenAt(plan, k), r);
    }
  }

  /** The flash of the session `b` once it has received `r` bytes, those after its own from this firmware. */
  function FlashAt(b: D.Device, plan: H.Plan, r: nat): (f: seq<Byte>)
    ensures |f| == |b.flash|
  {
    if b.received < r <= |plan.fw| && b.start + r <= |b.flash|
    then D.Stored(b.flash, b.start + b.received, plan.fw[b.received..r])
    else b.flash
  }

  lemma StoredOnce<T>(flash: seq<T>, at: nat, fw: seq<T>, k: nat, r: nat, n: nat)
    requires k <= r && r + n <= |fw| && at + r + n <= |flash|
    ensures var one := flash[..at + k] + fw[k..r] + flash[at + r..];
            one[..at + r] + fw[r..r + n] + one[at + r + n..] == flash[..at + k] + fw[k..r + n] + flash[at + r + n..]
  {
    var one := flash[..at + k] + fw[k..r] + flash[at + r..];
    assert one[..at + r] == flash[..at + k] + fw[k..r];
    assert one[at + r + n..] == flash[at + r + n..];
    assert fw[k..r] + fw[r..r + n] == fw[k..r + n];
  }

  lemma FlashGrows(b: D.Device, plan: H.Plan, r: nat, n: nat)
    requires b.received <= r && r + n <= |plan.fw| && b.start + r + n <= |b.flash| && n > 0
    ensures D.Stored(FlashAt(b, plan, r), b.start + r, plan.fw[r..r + n]) == FlashAt(b, plan, r + n)
  {
    var k := b.received;
    assert FlashAt(b, plan, r + n) == D.Stored(b.flash, b.start + k, plan.fw[k..r + n]);
    if r == k {
      assert FlashAt(b, plan, r) == b.flash;
    } else {
      assert FlashAt(b, plan, r) == D.Stored(b.flash, b.start + k, plan.fw[k..r]);
      StoredTwice(b.flash, b.start, plan.fw, k, r, n);
    }
  }

  lemma StoredTwice(flash: seq<Byte>, at: nat, fw: seq<Byte>, k: nat, r: nat, n: nat)
    requires k <= r && r + n <= |fw| && at + r + n <= |flash|
    ensures D.Stored(D.Stored(flash, at + k, fw[k..r]), at + r, fw[r..r + n]) == D.Stored(flash, at + k, fw[k..r + n])
  {
    StoredOnce(flash, at, fw, k, r, n);
  }

  // ---------------------------------------------------------------- the states of a session

  /** The next chunk does not fit into flash. */
  predicate Spills(b: D.Device, plan: H.Plan, r: nat)
    requires H.Valid(plan)
  {
    r < |plan.fw| && b.start + r + H.LenAt(plan, r) > |b.flash|
  }

  /** The verdict of the check that follows the last byte. */
  predicate Checked(d: D.Device) { d.received == d.total && d.calcCrc == D.CrcOfFlash(d.flash, d.start, d.total) }

  /** `d` is a state to which this host can have taken the session `b`. */
  predicate OnTrack(d: D.Device, b: D.Device, plan: H.Plan)
    requires H.Valid(plan)
  {
    && d.sector == b.sector && d.total == b.total && d.start == b.start && d.expectedCrc == b.expectedCrc
    && DeviceFits(d) && d.flash == FlashAt(b, plan, d.received)
    && if b.state != D.Receiving then
         && d.received == b.received && d.calcCrc == b.calcCrc
         && d.state != D.Idle && d.state != D.Erasing && d.state != D.Receiving
       else
         && Leads(b, plan, b.received, d.received)
         && match d.state
            case Receiving => d.calcCrc == b.calcCrc
            case Verifying => Checked(d)
            case Complete => Checked(d) && d.calcCrc == d.expectedCrc
            case Error =>
              || (Spills(b, plan, d.received) && d.calcCrc == b.calcCrc)
              || (Checked(d) && d.calcCrc != d.expectedCrc)
            case _ => false
  }

  lemma StartedOnTrack(d: D.Device, plan: H.Plan)
    requires H.Valid(plan) && DeviceFits(d)
    ensures OnTrack(Started(d, plan), Started(d, plan), plan)
  {
  }

  /** The session is over for good: its flash and its counters no longer change. */
  predicate Closed(d: D.Device) {
    d.received == d.total && d.state != D.Idle && d.state != D.Erasing && d.state != D.Receiving
  }

  /** From `d` the session goes on to `e`. */
  predicate Advances(d: D.Device, e: D.Device) {
    && d.received <= e.received && e.total == d.total
    && (Closed(d) ==> Closed(e) && e.flash == d.flash && e.calcCrc == d.calcCrc && e.expectedCrc == d.expectedCrc)
  }

  // ---------------------------------------------------------------- what the frames do

  /** A DATA frame that carries its own part of the firmware. */
  predicate IsChunk(plan: H.Plan, m: Message)
    requires H.Valid(plan)
  {
    exists o: nat :: o < |plan.fw| && m == DataFrame(o, H.ChunkAt(plan, o))
  }

  /** What a device makes of a chunk in place. */
  function AfterData(d: D.Device, chunk: seq<Byte>): D.Device {
    if d.state != D.Receiving then d
    else if d.start + d.received + |chunk| > |d.flash| then d.(state := D.Error)
    else d.(flash := D.Stored(d.flash, d.start + d.received, chunk), received := d.received + |chunk|)
  }

  lemma DataDispatched(d: D.Device, chunk: seq<Byte>)
    requires d.sector > 0 && d.state != D.Erasing
    ensures D.Dispatch(d, D.EvData(d.received, chunk)) == AfterData(d, chunk)
  {
  }

  lemma DataFits(d: D.Device, chunk: seq<Byte>)
    requires DeviceFits(d)
    ensures DeviceFits(AfterData(d, chunk)) && |AfterData(d, chunk).flash| == |d.flash|
  {
  }

  /** What a device makes of the chunk at `o`: out of place it is refused. */
  function AfterChunk(d: D.Device, plan: H.Plan, o: nat): D.Device
    requires H.Valid(plan) && o < |plan.fw|
  {
    if d.received != o then d else AfterData(d, H.ChunkAt(plan, o))
  }

  lemma ChunkRead(plan: H.Plan, o: nat, m: Message)
    requires H.Valid(plan) && o < |plan.fw| && m == DataFrame(o, H.ChunkAt(plan, o))
    ensures Contained(m) && |m.data| >= DATA_HEADER && m.cmd == DATA
    ensures D.DataEvent(m) == D.EvData(o, H.ChunkAt(plan, o))
  {
    DataRoundTrip(o, H.ChunkAt(plan, o));
  }

  lemma DataHandled(d: D.Device, m: Message, o: nat, chunk: seq<Byte>)
    requires DeviceFits(d) && |m.data| >= DATA_HEADER && m.cmd == DATA && D.DataEvent(m) == D.EvData(o, chunk)
    ensures D.HandleOta(d, m) ==
            if d.received != o then D.Handled(d, AckFrame(DATA, PARAM_ERR, d.received))
            else var e := D.Dispatch(d, D.EvData(o, chunk)); D.Handled(e, D.Ack(e, DATA, SUCCESS))
  {
  }

  /** The reply to the chunk at `o`. */
  function ChunkReply(d: D.Device, e: D.Device, o: nat): Message
    requires DeviceFits(e)
  {
    D.Ack(e, DATA, if d.received == o then SUCCESS else PARAM_ERR)
  }

  lemma ChunkHandled(d: D.Device, plan: H.Plan, o: nat)
    requires H.Valid(plan) && o < |plan.fw| && DeviceFits(d) && d.state != D.Erasing
    ensures var m, e := DataFrame(o, H.ChunkAt(plan, o)), AfterChunk(d, plan, o);
            Contained(m) && DeviceFits(e) && D.HandleOta(d, m) == D.Handled(e, ChunkReply(d, e, o))
  {
    var chunk := H.ChunkAt(plan, o);
    ChunkRead(plan, o, DataFrame(o, chunk));
    DataHandled(d, DataFrame(o, chunk), o, chunk);
    DataDispatched(d, chunk);
    DataFits(d, chunk);
  }

  lemma TrackGrows(d: D.Device, e: D.Device, b: D.Device, plan: H.Plan, n: nat)
    requires H.Valid(plan) && OnTrack(d, b, plan) && d.state == D.Receiving && DeviceFits(e)
    requires e == d.(flash := FlashAt(b, plan, d.received + n), received := d.received + n)
    requires Leads(b, plan, b.received, d.received + n)
    ensures OnTrack(e, b, plan) && Advances(d, e)
  {
  }

  lemma TrackSpills(d: D.Device, b: D.Device, plan: H.Plan)
    requires H.Valid(plan) && OnTrack(d, b, plan) && d.state == D.Receiving && Spills(b, plan, d.received)
    ensures OnTrack(d.(state := D.Error), b, plan) && Advances(d, d.(state := D.Error))
  {
  }

  lemma ChunkStored(d: D.Device, b: D.Device, plan: H.Plan, n: nat)
    requires H.Valid(plan) && d.state == D.Receiving && b.received <= d.received < |plan.fw|
    requires d.start == b.start && d.flash == FlashAt(b, plan, d.received)
    requires n == H.LenAt(plan, d.received) && d.start + d.received + n <= |d.flash|
    ensures AfterData(d, H.ChunkAt(plan, d.received))
         == d.(flash := FlashAt(b, plan, d.received + n), received := d.received + n)
  {
    FlashGrows(b, plan, d.received, n);
  }

  lemma ChunkOnTrack(d: D.Device, b: D.Device, plan: H.Plan, o: nat)
    requires H.Valid(plan) && o < |plan.fw| && OnTrack(d, b, plan)
    ensures OnTrack(AfterChunk(d, plan, o), b, plan) && Advances(d, AfterChunk(d, plan, o))
  {
    var n := H.LenAt(plan, o);
    if d.received == o && d.state == D.Receiving {
      if d.start + o + n <= |d.flash| {
        LeadsBound(b, plan, b.received, o);
        LeadsOn(b, plan, b.received, o);
        ChunkStored(d, b, plan, n);
        DataFits(d, H.ChunkAt(plan, o));
        TrackGrows(d, AfterChunk(d, plan, o), b, plan, n);
      } else {
        TrackSpills(d, b, plan);
      }
    }
  }

  function AfterEnd(d: D.Device): D.Device {
    if d.received == d.total && d.state == D.Receiving
    then d.(state := D.Verifying, calcCrc := D.CrcOfFlash(d.flash, d.start, d.total)) else d
  }

  lemma EndIsEnd(d: D.Device)
    requires DeviceFits(d)
    ensures Contained(EndFrame()) && D.HandleOta(d, EndFrame()) == D.HandleEnd(d)
  {
  }

  lemma EndHandled(d: D.Device)
    requires DeviceFits(d) && d.state != D.Idle && d.state != D.Erasing
    ensures var e := AfterEnd(d);
            && Contained(EndFrame()) && DeviceFits(e)
            && D.HandleOta(d, EndFrame())
               == D.Handled(e, AckFrame(END, if d.received == d.total then SUCCESS else PARAM_ERR, e.received))
            && (d.received == d.total ==> Closed(e))
  {
    EndIsEnd(d);
  }

  lemma EndOnTrack(d: D.Device, b: D.Device, plan: H.Plan)
    requires H.Valid(plan) && OnTrack(d, b, plan)
    ensures OnTrack(AfterEnd(d), b, plan) && Advances(d, AfterEnd(d))
  {
  }

  function AfterVerify(d: D.Device): D.Device {
    if d.state == D.Verifying then d.(state := if d.calcCrc == d.expectedCrc then D.Complete else D.Error) else d
  }

  lemma VerifyDispatched(d: D.Device)
    requires DeviceFits(d) && d.state != D.Idle && d.state != D.Erasing
    ensures D.Dispatch(d, D.EvVerify) == AfterVerify(d) && DeviceFits(AfterVerify(d))
  {
  }

  lemma VerifyAnswer(d: D.Device, e: D.Device)
    requires DeviceFits(d) && e == D.Dispatch(d, D.EvVerify)
    ensures Contained(VerifyFrame()) && D.HandleOta(d, VerifyFrame())
         == D.Handled(e, VerifyReply(if e.calcCrc == e.expectedCrc then SUCCESS else CRC_ERR, e.calcCrc))
  {
  }

  lemma VerifyHandled(d: D.Device)
    requires DeviceFits(d) && d.state != D.Idle && d.state != D.Erasing
    ensures var e := AfterVerify(d);
            && Contained(VerifyFrame()) && DeviceFits(e)
            && D.HandleOta(d, VerifyFrame())
               == D.Handled(e, VerifyReply(if d.calcCrc == d.expectedCrc then SUCCESS else CRC_ERR, e.calcCrc))
  {
    VerifyDispatched(d);
    VerifyAnswer(d, AfterVerify(d));
  }

  lemma VerifyOnTrack(d: D.Device, b: D.Device, plan: H.Plan)
    requires H.Valid(plan) && OnTrack(d, b, plan)
    ensures OnTrack(AfterVerify(d), b, plan) && Advances(d, AfterVerify(d))
  {
  }
}
