/** The host half of the upgrade: the four actions of the upgrade sequence and the handling of
    replies, first as functions on values and then as the object that updates in place. */
module OtaHost {
  import opened Octets
  import opened Crc
  import opened Frames
  import opened OtaWire

  datatype Phase = Send | Wait | Done

  datatype Status = Success | Failure | Running

  const MAX_CHUNK_RETRIES: nat := 3

  /** What is to be transferred, and where to; `connected` says that there is a callback to send with. */
  datatype Plan = Plan(fw: seq<Byte>, start: Word32, crc: bv16, chunkSize: nat, connected: bool)

  /** What the device last said. */
  datatype Reply = Reply(ackReceived: bool, lastStatus: Byte, lastReceived: Word32, nak: bool)

  datatype Verdict = Verdict(crc: bv16, received: bool, ok: bool)

  datatype Retries = Retries(chunk: nat, total: nat, drops: nat)

  datatype Phases = Phases(start: Phase, end: Phase, verify: Phase)

  datatype Host = Host(plan: Plan, bytesSent: Word32, offset: Word32, reply: Reply, verdict: Verdict,
                       retries: Retries, phases: Phases)

  const MAX_CHUNK: nat := MAX_PAYLOAD - DATA_HEADER

  /** What keeps the host inside its buffers: every chunk fits a frame, and the chunk size can be divided by
      when progress is logged. */
  predicate Valid(p: Plan) {
    && 0 < |p.fw| < 0x1_0000_0000
    && 0 < p.chunkSize < 0x1_0000_0000 && p.chunkSize * 8 % 0x1_0000_0000 != 0
    && (p.chunkSize <= MAX_CHUNK || |p.fw| <= MAX_CHUNK)
  }

  function NewHost(plan: Plan): Host {
    Host(plan, 0, 0, Reply(false, 0, 0, false), Verdict(0, false, false), Retries(0, 0, 0), Phases(Send, Send, Send))
  }

  /** 32-bit wrap-around. */
  function Wrap(n: int): Word32 { n % 0x1_0000_0000 }

  /** The outcome of an action: the new state, its status, and the frames sent. */
  datatype Outcome = Outcome(host: Host, status: Status, sent: seq<Message>)

  // ---------------------------------------------------------------- actions

  function SendStart(h: Host): (r: Outcome)
    requires Valid(h.plan)
    ensures r.host.plan == h.plan
  {
    if !h.plan.connected then Outcome(h, Failure, []) else
    match h.phases.start
    case Done => Outcome(h, Success, [])
    case Send =>
      Outcome(h.(reply := h.reply.(ackReceived := false), bytesSent := 0, offset := 0,
                 phases := h.phases.(start := Wait)),
              Running, [StartFrame(|h.plan.fw|, h.plan.start, h.plan.crc)])
    case Wait =>
      if !h.reply.ackReceived then Outcome(h, Running, [])
      else if h.reply.lastStatus == SUCCESS then Outcome(h.(phases := h.phases.(start := Done)), Success, [])
      else Outcome(h, Failure, [])
  }

  /** A pending NAK counts as one more retry, */
  function Counted(h: Host): (r: Host)
    ensures r.plan == h.plan
  {
    h.(reply := h.reply.(nak := false),
       retries := Retries(h.retries.chunk + 1, h.retries.total + 1, h.retries.drops + 1))
  }

  /** and rewinds to what the device has. */
  function Rewound(h: Host): (r: Host)
    ensures r.plan == h.plan && r.offset == h.reply.lastReceived
  {
    var back := h.reply.lastReceived;
    h.(bytesSent := if h.offset > back then Wrap(h.bytesSent - (h.offset - back)) else h.bytesSent, offset := back)
  }

  /** The length of the chunk at an offset. */
  function LenAt(p: Plan, offset: nat): (n: nat)
    requires Valid(p) && offset < |p.fw|
    ensures 1 <= n <= MAX_CHUNK && offset + n <= |p.fw|
  {
    if |p.fw| - offset < p.chunkSize then |p.fw| - offset else p.chunkSize
  }

  function ChunkAt(p: Plan, offset: nat): seq<Byte>
    requires Valid(p) && offset < |p.fw|
  {
    p.fw[offset..offset + LenAt(p, offset)]
  }

  function SendNext(h: Host): (r: Outcome)
    requires Valid(h.plan)
    ensures r.host.plan == h.plan
  {
    if h.offset >= |h.plan.fw| then Outcome(h, Success, [])
    else
      var n := LenAt(h.plan, h.offset);
      Outcome(h.(offset := h.offset + n, bytesSent := Wrap(h.bytesSent + n)), Running,
              [DataFrame(h.offset, ChunkAt(h.plan, h.offset))])
  }

  function SendChunks(h: Host): (r: Outcome)
    requires Valid(h.plan)
    ensures r.host.plan == h.plan
  {
    if !h.plan.connected then Outcome(h, Failure, [])
    else if !h.reply.nak then SendNext(h)
    else if Counted(h).retries.chunk > MAX_CHUNK_RETRIES then Outcome(Counted(h), Failure, [])
    else SendNext(Rewound(Counted(h)))
  }

  function SendEnd(h: Host): (r: Outcome)
    ensures r.host.plan == h.plan
  {
    if !h.plan.connected then Outcome(h, Failure, []) else
    match h.phases.end
    case Done => Outcome(h, Success, [])
    case Send =>
      Outcome(h.(reply := h.reply.(ackReceived := false), phases := h.phases.(end := Wait)), Running, [EndFrame()])
    case Wait =>
      if !h.reply.ackReceived then Outcome(h, Running, [])
      else if h.reply.lastStatus == SUCCESS then Outcome(h.(phases := h.phases.(end := Done)), Success, [])
      else if h.reply.lastReceived < |h.plan.fw| then
        Outcome(h.(offset := h.reply.lastReceived, phases := h.phases.(end := Send),
                   reply := h.reply.(ackReceived := false, nak := false)), Running, [])
      else Outcome(h, Failure, [])
  }

  function SendVerify(h: Host): (r: Outcome)
    ensures r.host.plan == h.plan
  {
    if !h.plan.connected then Outcome(h, Failure, []) else
    match h.phases.verify
    case Done => Outcome(h, Success, [])
    case Send =>
      Outcome(h.(verdict := h.verdict.(received := false, ok := false), phases := h.phases.(verify := Wait)), Running,
              [VerifyFrame()])
    case Wait =>
      if !h.verdict.received then Outcome(h, Running, [])
      else Outcome(h.(phases := h.phases.(verify := Done)), if h.verdict.ok then Success else Failure, [])
  }

  // ---------------------------------------------------------------- the upgrade sequence

  datatype Step = Start | Chunks | End | Verify

  function Do(step: Step, h: Host): (r: Outcome)
    requires Valid(h.plan)
    ensures r.host.plan == h.plan
  {
    match step
    case Start => SendStart(h)
    case Chunks => SendChunks(h)
    case End => SendEnd(h)
    case Verify => SendVerify(h)
  }

  const SEQUENCE: seq<Step> := [Start, Chunks, End, Verify]

  /** The actions in order, each on the state the one before it left, until one does not succeed. */
  function DoAll(steps: seq<Step>, h: Host): (r: Outcome)
    requires Valid(h.plan)
    ensures r.host.plan == h.plan
  {
    if steps == [] then Outcome(h, Success, [])
    else
      var first := Do(steps[0], h);
      if first.status != Success then first
      else
        var rest := DoAll(steps[1..], first.host);
        Outcome(rest.host, rest.status, first.sent + rest.sent)
  }

  lemma DoAllFrom(steps: seq<Step>, i: nat, h: Host)
    requires Valid(h.plan) && i < |steps|
    ensures var first := Do(steps[i], h);
            DoAll(steps[i..], h) == if first.status != Success then first
                                    else var rest := DoAll(steps[i + 1..], first.host);
                                         Outcome(rest.host, rest.status, first.sent + rest.sent)
  {
    assert steps[i..][1..] == steps[i + 1..];
  }

  lemma SentInTurn(a: seq<Message>, b: seq<Message>, c: seq<Message>)
    ensures a + (b + c) == (a + b) + c
  {
  }

  /** One tick of the upgrade: the whole sequence from its first action. */
  function Tick(h: Host): (r: Outcome)
    requires Valid(h.plan)
    ensures r.host.plan == h.plan
  {
    DoAll(SEQUENCE, h)
  }

  /** An action that succeeds sends nothing, so a tick is the first action that does not. */
  lemma TickIs(h: Host)
    requires Valid(h.plan)
    ensures var a := SendStart(h);
            var b := SendChunks(a.host);
            var c := SendEnd(b.host);
            Tick(h) == if a.status != Success then a
                         else if b.status != Success then b
                         else if c.status != Success then c
                         else SendVerify(c.host)
  {
    assert SEQUENCE[1..] == [Chunks, End, Verify];
    MoreActions(SEQUENCE, h);
    var a := SendStart(h);
    assert [Chunks, End, Verify][1..] == [End, Verify];
    MoreActions([Chunks, End, Verify], a.host);
    var b := SendChunks(a.host);
    assert [End, Verify][1..] == [Verify];
    MoreActions([End, Verify], b.host);
    LastAction(SendEnd(b.host).host);
  }

  lemma MoreActions(steps: seq<Step>, h: Host)
    requires Valid(h.plan) && steps != []
    ensures var first := Do(steps[0], h);
            DoAll(steps, h) == if first.status != Success then first else DoAll(steps[1..], first.host)
  {
    var first := Do(steps[0], h);
    SuccessIsQuiet(steps[0], h);
    if first.status == Success {
      JoinQuiet(first, DoAll(steps[1..], first.host));
    }
  }

  lemma JoinQuiet(first: Outcome, rest: Outcome)
    requires first.sent == []
    ensures Outcome(rest.host, rest.status, first.sent + rest.sent) == rest
  {
  }

  lemma SuccessIsQuiet(step: Step, h: Host)
    requires Valid(h.plan)
    ensures Do(step, h).status == Success ==> Do(step, h).sent == []
  {
  }

  lemma LastAction(h: Host)
    requires Valid(h.plan)
    ensures DoAll([Verify], h) == SendVerify(h)
  {
    assert [Verify][1..] == [];
    var d := SendVerify(h);
    assert d.sent + [] == d.sent;
  }

  // ---------------------------------------------------------------- the progress figure

  /** A NAK asks for an offset ahead of the one to be sent next. */
  predicate SkipsAhead(h: Host) { h.reply.nak && h.retries.chunk < 3 && h.reply.lastReceived > h.offset }

  /** All is sent, and a refused END asks for some of it again. */
  predicate EndRewinds(h: Host) {
    && !h.reply.nak && h.offset >= |h.plan.fw| && h.phases.end == Wait
    && h.reply.ackReceived && h.reply.lastStatus != SUCCESS && h.reply.lastReceived < |h.plan.fw|
  }

  lemma WrapSmall(n: int)
    requires 0 <= n < 0x1_0000_0000
    ensures Wrap(n) == n
  {
  }

  lemma NextProgress(h: Host)
    requires Valid(h.plan) && h.bytesSent <= h.offset
    ensures var r := SendNext(h).host; r.offset - r.bytesSent == h.offset - h.bytesSent
  {
    if h.offset < |h.plan.fw| {
      WrapSmall(h.bytesSent + LenAt(h.plan, h.offset));
    }
  }

  lemma RewoundProgress(h: Host)
    requires h.bytesSent == h.offset
    ensures var r := Rewound(h);
            r.bytesSent <= r.offset && (r.bytesSent == r.offset <==> h.reply.lastReceived <= h.offset)
  {
    if h.offset > h.reply.lastReceived {
      WrapSmall(h.bytesSent - (h.offset - h.reply.lastReceived));
    }
  }

  lemma ChunksProgress(h: Host)
    requires Valid(h.plan) && h.plan.connected && h.bytesSent == h.offset
    ensures var r := SendChunks(h);
            && (r.host.bytesSent == r.host.offset <==> !SkipsAhead(h))
            && (r.status == Success ==> r.host.offset >= |h.plan.fw| && r.host.phases == h.phases
                                        && r.host.reply == h.reply.(nak := false))
            && (r.status == Success && !h.reply.nak ==> r.host == h)
  {
    if h.reply.nak {
      RewoundProgress(Counted(h));
      NextProgress(Rewound(Counted(h)));
    } else {
      NextProgress(h);
    }
  }

  lemma EndProgress(h: Host)
    requires Valid(h.plan) && h.plan.connected && !h.reply.nak && h.offset >= |h.plan.fw|
    ensures var r := SendEnd(h).host;
            if EndRewinds(h) then r.bytesSent == h.bytesSent && r.offset == h.reply.lastReceived < h.offset
            else r.bytesSent == h.bytesSent && r.offset == h.offset
  {
  }

  /** The bytes reported as sent are the offset of the next chunk, and a tick keeps that exactly if the host is neither
      asked to skip ahead nor rewound by a refused END: there the count of bytes is left as it was. */
  lemma ProgressIsOffsetIff(h: Host)
    requires Valid(h.plan) && h.plan.connected && h.phases.start == Done && h.bytesSent == h.offset
    ensures var r := Tick(h).host; r.bytesSent == r.offset <==> !SkipsAhead(h) && !EndRewinds(h)
  {
    TickIs(h);
    ChunksProgress(h);
    var b := SendChunks(h);
    if b.status == Success {
      EndProgress(b.host);
    }
  }

  lemma CountsNothing(h: Host)
    requires Valid(h.plan)
    ensures SendStart(h).host.retries == SendEnd(h).host.retries == SendVerify(h).host.retries == h.retries
    ensures SendStart(h).host.reply.nak == SendVerify(h).host.reply.nak == h.reply.nak
    ensures !h.reply.nak ==> !SendEnd(h).host.reply.nak
  {
  }

  lemma ChunksCount(h: Host)
    requires Valid(h.plan) && h.plan.connected
    ensures var r, n := SendChunks(h).host, if h.reply.nak then 1 else 0;
            r.retries == Retries(h.retries.chunk + n, h.retries.total + n, h.retries.drops + n) && !r.reply.nak
  {
  }

  /** The tick looks at a NAK once START is acknowledged, and counts it once, as a retry and as a drop. */
  lemma NakIsCountedOnce(h: Host)
    requires Valid(h.plan) && h.plan.connected
    ensures var r, seen := Tick(h).host, SendStart(h).status == Success && h.reply.nak;
            && r.retries.total == h.retries.total + (if seen then 1 else 0)
            && r.retries.drops == h.retries.drops + (if seen then 1 else 0)
            && r.retries.chunk == h.retries.chunk + (if seen then 1 else 0)
            && (r.reply.nak <==> h.reply.nak && !seen)
  {
    TickIs(h);
    var a := SendStart(h).host;
    var b := SendChunks(a);
    CountsNothing(h);
    ChunksCount(a);
    if b.status == Success {
      CountsNothing(b.host);
      CountsNothing(SendEnd(b.host).host);
    }
  }

  // ---------------------------------------------------------------- replies

  function OnResponse(h: Host, m: Message): (r: Host)
    ensures r.plan == h.plan
  {
    if m.cls != OTA_CLASS || m.cmd < ACK_FLAG then h
    else if m.cmd - ACK_FLAG == VERIFY then
      if |m.data| < VERIFY_SIZE then h
      else h.(verdict := Verdict(ReadCrc(m.data, 3), true, m.data[2] == SUCCESS))
    else if |m.data| < ACK_SIZE then h
    else if m.cmd - ACK_FLAG == DATA then
      if m.data[2] != SUCCESS then h.(reply := h.reply.(lastReceived := Read32(m.data, 3), nak := true))
      else h.(retries := h.retries.(chunk := 0))
    else h.(reply := h.reply.(lastStatus := m.data[2], lastReceived := Read32(m.data, 3), ackReceived := true))
  }

  /** Frames of another class, requests, and replies that are too short change nothing. */
  lemma ForeignIsIgnored(h: Host, m: Message)
    requires m.cls != 4 || m.cmd < 0x80 || |m.data| < 5 || (m.cmd != 0x84 && |m.data| < 7)
    ensures OnResponse(h, m) == h
  {
  }

  // ---------------------------------------------------------------- the object

  class HostRunner {
    var plan: Plan
    var bytesSent: Word32
    var offset: Word32
    var reply: Reply
    var verdict: Verdict
    var retries: Retries
    var phases: Phases
    var sent: seq<Message>

    ghost function View(): Host
      reads this
    {
      Host(plan, bytesSent, offset, reply, verdict, retries, phases)
    }

    /** The outcome since a moment: state, status and the frames sent since then. */
    ghost predicate Did(r: Outcome, before: seq<Message>, status: Status)
      reads this
    {
      View() == r.host && status == r.status && sent == before + r.sent
    }

    constructor (p: Plan)
      ensures View() == NewHost(p) && sent == []
    {
      plan := p;
      bytesSent, offset, sent := 0, 0, [];
      reply := Reply(false, 0, 0, false);
      verdict := Verdict(0, false, false);
      retries := Retries(0, 0, 0);
      phases := Phases(Send, Send, Send);
    }

    /** Starting takes a firmware and a callback; it fixes the CRC the device is to find. */
    method DoStart(table: array<bv16>) returns (ok: bool)
      requires IsTable(table)
      modifies this
      ensures ok == (plan.fw != [] && plan.connected)
      ensures View() == old(View()).(plan := if ok then old(plan).(crc := Of(old(plan).fw)) else old(plan))
      ensures sent == old(sent)
    {
      if plan.fw == [] || !plan.connected {
        return false;
      }
      var crc := Calc(table, plan.fw);
      plan := plan.(crc := crc);
      return true;
    }

    method DoSendStart() returns (status: Status)
      requires Valid(plan)
      modifies this
      ensures Did(SendStart(old(View())), old(sent), status)
    {
      if !plan.connected {
        return Failure;
      }
      if phases.start == Done {
        return Success;
      }
      if phases.start == Send {
        reply := reply.(ackReceived := false);
        bytesSent := 0;
        offset := 0;
        phases := phases.(start := Wait);
        sent := sent + [StartFrame(|plan.fw|, plan.start, plan.crc)];
        return Running;
      }
      if !reply.ackReceived {
        return Running;
      }
      if reply.lastStatus == SUCCESS {
        phases := phases.(start := Done);
        return Success;
      }
      return Failure;
    }

    method DoSendChunks() returns (status: Status)
      requires Valid(plan)
      modifies this
      ensures Did(SendChunks(old(View())), old(sent), status)
    {
      if !plan.connected {
        return Failure;
      }
      if reply.nak {
        reply := reply.(nak := false);
        retries := Retries(retries.chunk + 1, retries.total + 1, retries.drops + 1);
        if retries.chunk > MAX_CHUNK_RETRIES {
          return Failure;
        }
        var back := reply.lastReceived;
        if offset > back {
          bytesSent := Wrap(bytesSent - (offset - back));
        }
        offset := back;
      }
      status := DoSendNext();
    }

    method DoSendNext() returns (status: Status)
      requires Valid(plan)
      modifies this
      ensures Did(SendNext(old(View())), old(sent), status)
    {
      if offset >= |plan.fw| {
        return Success;
      }
      var remaining := |plan.fw| - offset;
      var n := if remaining < plan.chunkSize then remaining else plan.chunkSize;
      sent := sent + [DataFrame(offset, plan.fw[offset..offset + n])];
      bytesSent := Wrap(bytesSent + n);
      offset := offset + n;
      return Running;
    }

    method DoSendEnd() returns (status: Status)
      modifies this
      ensures Did(SendEnd(old(View())), old(sent), status)
    {
      if !plan.connected {
        return Failure;
      }
      if phases.end == Done {
        return Success;
      }
      if phases.end == Send {
        reply := reply.(ackReceived := false);
        phases := phases.(end := Wait);
        sent := sent + [EndFrame()];
        return Running;
      }
      if !reply.ackReceived {
        return Running;
      }
      if reply.lastStatus == SUCCESS {
        phases := phases.(end := Done);
        return Success;
      }
      if reply.lastReceived < |plan.fw| {
        offset := reply.lastReceived;
        phases := phases.(end := Send);
        reply := reply.(ackReceived := false, nak := false);
        return Running;
      }
      return Failure;
    }

    method DoSendVerify() returns (status: Status)
      modifies this
      ensures Did(SendVerify(old(View())), old(sent), status)
    {
      if !plan.connected {
        return Failure;
      }
      if phases.verify == Done {
        return Success;
      }
      if phases.verify == Send {
        verdict := verdict.(received := false, ok := false);
        phases := phases.(verify := Wait);
        sent := sent + [VerifyFrame()];
        return Running;
      }
      if !verdict.received {
        return Running;
      }
      phases := phases.(verify := Done);
      return if verdict.ok then Success else Failure;
    }

    method DoStep(step: Step) returns (status: Status)
      requires Valid(plan)
      modifies this
      ensures Did(Do(step, old(View())), old(sent), status)
    {
      match step {
        case Start => status := DoSendStart();
        case Chunks => status := DoSendChunks();
        case End => status := DoSendEnd();
        case Verify => status := DoSendVerify();
      }
    }

    /** A sequence ticks its actions in order until one does not succeed. */
    method DoSequence(steps: seq<Step>) returns (status: Status)
      requires Valid(plan)
      modifies this
      ensures Did(DoAll(steps, old(View())), old(sent), status)
    {
      ghost var goal, before := DoAll(steps, View()), sent;
      assert steps[0..] == steps;
      status := Success;
      for i := 0 to |steps|
        invariant status == Success && Valid(plan)
        invariant var r := DoAll(steps[i..], View());
                  goal.host == r.host && goal.status == r.status && before + goal.sent == sent + r.sent
      {
        ghost var first, soFar := Do(steps[i], View()), sent;
        DoAllFrom(steps, i, View());
        status := DoStep(steps[i]);
        if status != Success {
          return;
        }
        SentInTurn(soFar, first.sent, DoAll(steps[i + 1..], first.host).sent);
      }
    }

    /** A tick of the upgrade is a tick of its sequence. */
    method DoTick() returns (status: Status)
      requires Valid(plan)
      modifies this
      ensures Did(Tick(old(View())), old(sent), status)
    {
      status := DoSequence(SEQUENCE);
    }

    method DoOnResponse(m: Message)
      modifies this
      ensures View() == OnResponse(old(View()), m) && sent == old(sent)
    {
      if m.cls != OTA_CLASS || m.cmd < ACK_FLAG {
        return;
      }
      var cmd := m.cmd - ACK_FLAG;
      if cmd == VERIFY {
        if |m.data| >= VERIFY_SIZE {
          verdict := Verdict(ReadCrc(m.data, 3), true, m.data[2] == SUCCESS);
        }
      } else if cmd == DATA {
        if |m.data| >= ACK_SIZE {
          if m.data[2] != SUCCESS {
            reply := reply.(lastReceived := Read32(m.data, 3), nak := true);
          } else {
            retries := retries.(chunk := 0);
          }
        }
      } else if |m.data| >= ACK_SIZE {
        reply := reply.(lastStatus := m.data[2], lastReceived := Read32(m.data, 3), ackReceived := true);
      }
    }
  }
}
