/** What brings an upgrade to a standstill. The host has no timeout while it waits, so what matters is what is still
    under way: when a success is out of reach, and that it stays so. */
module OtaStandstill {
  import opened Octets
  import opened Frames
  import opened OtaWire
  import opened OtaLink
  import opened OtaTrack
  import opened OtaSafety
  import opened OtaLanding
  import opened OtaUpgrade
  import H = OtaHost
  import D = OtaDevice

  // ---------------------------------------------------------------- the condition

  /** Some way to go on leads to a reported success. */
  ghost predicate CanSucceed(s: System)
    requires WellFormed(s)
  {
    exists actions :: Reports(Run(s, actions))
  }

  /** The host waits for the answer to a command, and neither the command nor its answer is under way. */
  predicate Cut(s: System, cmd: Byte)
    requires cmd < ACK_FLAG
  {
    Awaits(s.host, cmd) && Pending(s, cmd) == 0
  }

  predicate Broken(s: System) { Cut(s, START) || Cut(s, END) || Cut(s, VERIFY) }

  /** The host has heard that END was refused, and the last size it heard of leaves nothing to send again. */
  predicate Refused(h: H.Host) {
    && h.phases.end == H.Wait && h.reply.ackReceived && h.reply.lastStatus != SUCCESS
    && h.reply.lastReceived >= |h.plan.fw|
  }

  predicate IsAck(m: Message) { |m.data| == ACK_SIZE && m.cmd != Replying(VERIFY) }

  /** The size an acknowledgement reports. */
  function Size(m: Message): Word32
    requires IsAck(m)
  {
    Read32(m.data, 3)
  }

  /** A chunk was refused while bytes were missing. */
  predicate Reopens(m: Message, plan: H.Plan) {
    IsAck(m) && m.cmd == Replying(DATA) && m.data[2] != SUCCESS && Size(m) < |plan.fw|
  }

  predicate SomeReopens(s: System) { exists i :: 0 <= i < |s.down| && Reopens(s.down[i], s.host.plan) }

  /** Chunks of the firmware, or none at all, bring the session of this device to its total; an idle device begins its
      session first. */
  predicate CanLand(d: D.Device, plan: H.Plan)
    requires H.Valid(plan) && DeviceFits(d)
  {
    Lands(Started(d, plan), plan)
  }

  predicate Hopeful(s: System)
    requires WellFormed(s)
  {
    && !Broken(s) && CanLand(s.device, s.host.plan)
    && (Refused(s.host) ==> SomeReopens(s))
  }

  // ---------------------------------------------------------------- what the reported sizes say

  /** A reply reports no more than the device has, and if it refuses END with nothing to send again, then the session
      cannot come to its total. */
  predicate FairReply(m: Message, d: D.Device, plan: H.Plan)
    requires H.Valid(plan) && DeviceFits(d)
  {
    IsAck(m) ==>
      && Size(m) <= d.received
      && (m.cmd == Replying(END) && m.data[2] != SUCCESS && Size(m) >= |plan.fw| ==> !CanLand(d, plan))
  }

  predicate AllFair(down: seq<Message>, d: D.Device, plan: H.Plan)
    requires H.Valid(plan) && DeviceFits(d)
  {
    forall i :: 0 <= i < |down| ==> FairReply(down[i], d, plan)
  }

  predicate Sized(s: System)
    requires WellFormed(s)
  {
    && (s.device.state == D.Idle ==> s.down == [] && s.host.reply.lastReceived == 0)
    && s.host.reply.lastReceived <= s.device.received
    && AllFair(s.down, s.device, s.host.plan)
  }

  /** What is known of sizes and of landing, from one device to the next. */
  predicate FairStep(d: D.Device, r: D.Handled, plan: H.Plan)
    requires H.Valid(plan) && DeviceFits(d) && DeviceFits(r.device)
  {
    && r.device.state != D.Idle
    && (d.state != D.Idle ==> d.received <= r.device.received)
    && (CanLand(r.device, plan) ==> CanLand(d, plan))
    && FairReply(r.reply, r.device, plan) && (IsAck(r.reply) ==> Size(r.reply) == r.device.received)
  }

  lemma AckIsSized(cmd: Byte, status: Byte, received: Word32)
    requires cmd < ACK_FLAG && cmd != VERIFY
    ensures var m := AckFrame(cmd, status, received);
            IsAck(m) && m.cmd == Replying(cmd) && m.data[2] == status && Size(m) == received
  {
    AckRoundTrip(cmd, status, received);
  }

  lemma StartedTwice(d: D.Device, plan: H.Plan)
    requires DeviceFits(d)
    ensures Started(Started(d, plan), plan) == Started(d, plan)
  {
  }

  lemma RunningIsStarted(d: D.Device, plan: H.Plan)
    requires DeviceFits(d) && Running(d)
    ensures Started(d, plan) == d
  {
  }

  lemma StartFair(d: D.Device, plan: H.Plan)
    requires H.Valid(plan) && DeviceFits(d)
    ensures var m := StartFrame(|plan.fw|, plan.start, plan.crc);
            && FairStep(d, D.HandleOta(d, m), plan) && D.HandleOta(d, m).reply.cmd == Replying(START)
            && (CanLand(d, plan) ==> CanLand(D.HandleOta(d, m).device, plan))
  {
    StartHandled(d, plan);
    StartedTwice(d, plan);
    AckIsSized(START, SUCCESS, Started(d, plan).received);
  }

  lemma ChunkLands(d: D.Device, plan: H.Plan, o: nat)
    requires H.Valid(plan) && o < |plan.fw| && DeviceFits(d) && Running(d)
    ensures var e := AfterChunk(d, plan, o);
            e.total == d.total && d.received <= e.received && Running(e) && (Lands(e, plan) ==> Lands(d, plan))
  {
    var e, n := AfterChunk(d, plan, o), H.LenAt(plan, o);
    if d.received == o && d.state == D.Receiving && d.start + o + n <= |d.flash| {
      DataFits(d, H.ChunkAt(plan, o));
      LeadsSame(d, e, plan, o + n, d.total);
    }
  }

  lemma ChunkFair(d: D.Device, plan: H.Plan, o: nat)
    requires H.Valid(plan) && o < |plan.fw| && DeviceFits(d) && Running(d)
    ensures var r := D.HandleOta(d, DataFrame(o, H.ChunkAt(plan, o)));
            FairStep(d, r, plan) && r.reply.cmd == Replying(DATA)
  {
    var e := AfterChunk(d, plan, o);
    ChunkHandled(d, plan, o);
    ChunkLands(d, plan, o);
    RunningIsStarted(d, plan);
    RunningIsStarted(e, plan);
    AckIsSized(DATA, if d.received == o then SUCCESS else PARAM_ERR, e.received);
  }

  lemma EndLands(d: D.Device, plan: H.Plan)
    requires H.Valid(plan) && Running(d)
    ensures var e := AfterEnd(d);
            && e.received == d.received && e.total == d.total && Running(e)
            && (Lands(e, plan) <==> Lands(d, plan))
            && (d.received != d.total && d.received >= |plan.fw| ==> !Lands(d, plan))
  {
  }

  lemma EndFair(d: D.Device, plan: H.Plan)
    requires H.Valid(plan) && DeviceFits(d) && Running(d)
    ensures var r := D.HandleOta(d, EndFrame());
            && FairStep(d, r, plan) && r.reply.cmd == Replying(END)
            && (CanLand(d, plan) ==> CanLand(r.device, plan))
  {
    var e := AfterEnd(d);
    EndHandled(d);
    EndLands(d, plan);
    RunningIsStarted(d, plan);
    RunningIsStarted(e, plan);
    AckIsSized(END, if d.received == d.total then SUCCESS else PARAM_ERR, e.received);
  }

  lemma VerifyLands(d: D.Device, plan: H.Plan)
    requires H.Valid(plan) && Running(d)
    ensures var e := AfterVerify(d);
            e.received == d.received && Running(e) && (Lands(e, plan) <==> Lands(d, plan))
  {
    if d.state != D.Verifying {
      assert AfterVerify(d) == d;
    }
  }

  lemma VerifyFair(d: D.Device, plan: H.Plan)
    requires H.Valid(plan) && DeviceFits(d) && Running(d)
    ensures var r := D.HandleOta(d, VerifyFrame());
            && FairStep(d, r, plan) && r.reply.cmd == Replying(VERIFY)
            && (CanLand(d, plan) ==> CanLand(r.device, plan))
  {
    var e := AfterVerify(d);
    VerifyHandled(d);
    VerifyLands(d, plan);
    RunningIsStarted(d, plan);
    RunningIsStarted(e, plan);
  }

  lemma BegunRuns(d: D.Device, d0: D.Device, plan: H.Plan)
    requires H.Valid(plan) && DeviceFits(d0) && Begun(d, d0, plan)
    ensures DeviceFits(d) && Running(d)
  {
  }

  /** Any frame of the host, at any time. */
  lemma FrameFair(s: System, d0: D.Device, i: nat)
    requires Inv(s, d0) && i < |s.up|
    ensures var r := D.HandleOta(s.device, s.up[i]);
            && DeviceFits(r.device) && FairStep(s.device, r, s.host.plan)
            && s.up[i].cmd < ACK_FLAG && r.reply.cmd == Replying(s.up[i].cmd)
            && (s.up[i].cmd != DATA && CanLand(s.device, s.host.plan) ==> CanLand(r.device, s.host.plan))
  {
    var m, plan := s.up[i], s.host.plan;
    assert FromHost(plan, m);
    if m.cmd == START {
      StartFair(s.device, plan);
    } else {
      BegunByNow(s, d0, i);
      BegunRuns(s.device, d0, plan);
      if m == EndFrame() {
        EndFair(s.device, plan);
      } else if m == VerifyFrame() {
        VerifyFair(s.device, plan);
      } else {
        var o: nat :| o < |plan.fw| && m == DataFrame(o, H.ChunkAt(plan, o));
        ChunkFair(s.device, plan, o);
      }
    }
  }

  // ---------------------------------------------------------------- the sizes in every run

  lemma SizeStays(h: H.Host)
    requires H.Valid(h.plan)
    ensures H.SendStart(h).host.reply.lastReceived == H.SendChunks(h).host.reply.lastReceived
         == H.SendEnd(h).host.reply.lastReceived == H.SendVerify(h).host.reply.lastReceived == h.reply.lastReceived
  {
  }

  lemma TickKeepsSize(h: H.Host)
    requires H.Valid(h.plan)
    ensures H.Tick(h).host.reply.lastReceived == h.reply.lastReceived
  {
    H.TickIs(h);
    var a := H.SendStart(h).host;
    SizeStays(h);
    SizeStays(a);
    SizeStays(H.SendChunks(a).host);
    SizeStays(H.SendEnd(H.SendChunks(a).host).host);
  }

  lemma HeardSize(h: H.Host, m: Message)
    requires FromDevice(m)
    ensures var size := H.OnResponse(h, m).reply.lastReceived;
            size == h.reply.lastReceived || (IsAck(m) && size == Size(m))
  {
  }

  lemma StillFair(m: Message, d: D.Device, r: D.Handled, plan: H.Plan)
    requires H.Valid(plan) && DeviceFits(d) && DeviceFits(r.device)
    requires d.state != D.Idle && FairReply(m, d, plan) && FairStep(d, r, plan)
    ensures FairReply(m, r.device, plan)
  {
  }

  lemma AnswerSized(s: System, r: D.Handled, t: System)
    requires WellFormed(s) && Sized(s) && DeviceFits(r.device) && FairStep(s.device, r, s.host.plan)
    requires WellFormed(t) && t == s.(device := r.device, up := t.up, down := s.down + [r.reply])
    ensures Sized(t)
  {
    forall k | 0 <= k < |s.down| ensures FairReply(s.down[k], r.device, s.host.plan) {
      StillFair(s.down[k], s.device, r, s.host.plan);
    }
  }

  lemma ToDeviceSized(s: System, d0: D.Device, i: nat)
    requires Inv(s, d0) && Sized(s) && i < |s.up|
    ensures WellFormed(Step(s, ToDevice(i))) && Sized(Step(s, ToDevice(i)))
  {
    StepWellFormed(s, ToDevice(i));
    FrameFair(s, d0, i);
    AnswerSized(s, D.HandleOta(s.device, s.up[i]), Step(s, ToDevice(i)));
  }

  lemma ToHostSized(s: System, d0: D.Device, i: nat)
    requires Inv(s, d0) && Sized(s) && i < |s.down|
    ensures WellFormed(Step(s, ToHost(i))) && Sized(Step(s, ToHost(i)))
  {
    StepWellFormed(s, ToHost(i));
    assert Truthful(s.down[i], s.device, d0, s.host.plan) && FairReply(s.down[i], s.device, s.host.plan);
    HeardSize(s.host, s.down[i]);
  }

  lemma StepSized(s: System, d0: D.Device, a: Action)
    requires Inv(s, d0) && Sized(s) && Enabled(s, a)
    ensures WellFormed(Step(s, a)) && Sized(Step(s, a))
  {
    StepWellFormed(s, a);
    match a
    case HostTick => TickKeepsSize(s.host);
    case ToDevice(i) => ToDeviceSized(s, d0, i);
    case ToHost(i) => ToHostSized(s, d0, i);
    case _ =>
  }

  // ---------------------------------------------------------------- what cannot be mended

  /** A host that waits goes on waiting. */
  lemma WaitsForStart(h: H.Host)
    requires H.Valid(h.plan) && h.plan.connected && Awaits(h, START)
    ensures H.Tick(h) == H.Outcome(h, H.Running, [])
  {
    H.TickIs(h);
  }

  predicate NoneOf(sent: seq<Message>, cmd: Byte) { |sent| <= 1 && (|sent| == 1 ==> sent[0].cmd != cmd) }

  lemma WaitsForEnd(h: H.Host)
    requires H.Valid(h.plan) && Ordered(h.phases) && h.plan.connected && Awaits(h, END)
    ensures var r := H.Tick(h); Awaits(r.host, END) && r.status != H.Success && NoneOf(r.sent, END)
  {
    H.TickIs(h);
  }

  lemma WaitsForVerdict(h: H.Host)
    requires H.Valid(h.plan) && Ordered(h.phases) && h.plan.connected && Awaits(h, VERIFY)
    ensures var r := H.Tick(h); Awaits(r.host, VERIFY) && r.status != H.Success && NoneOf(r.sent, VERIFY)
  {
    H.TickIs(h);
  }

  predicate IsCommand(cmd: Byte) { cmd == START || cmd == END || cmd == VERIFY }

  lemma Waits(h: H.Host, cmd: Byte)
    requires H.Valid(h.plan) && Ordered(h.phases) && h.plan.connected && IsCommand(cmd) && Awaits(h, cmd)
    ensures var r := H.Tick(h); Awaits(r.host, cmd) && r.status != H.Success && NoneOf(r.sent, cmd)
  {
    if cmd == START {
      WaitsForStart(h);
    } else if cmd == END {
      WaitsForEnd(h);
    } else {
      WaitsForVerdict(h);
    }
  }

  lemma CutTick(s: System, cmd: Byte)
    requires WellFormed(s) && Ordered(s.host.phases) && s.host.plan.connected && IsCommand(cmd) && Cut(s, cmd)
    ensures Cut(Step(s, HostTick), cmd) && !Reports(s)
  {
    var sent := H.Tick(s.host).sent;
    Waits(s.host, cmd);
    if |sent| == 1 {
      assert sent == [sent[0]];
      CountMore(s.up, sent[0], cmd);
    } else {
      assert s.up + sent == s.up;
    }
  }

  lemma CutToHost(s: System, d0: D.Device, i: nat, cmd: Byte)
    requires Inv(s, d0) && i < |s.down| && IsCommand(cmd) && Cut(s, cmd)
    ensures Cut(Step(s, ToHost(i)), cmd)
  {
    var m := s.down[i];
    assert Truthful(m, s.device, d0, s.host.plan);
    CountWithout(s.down, i, Replying(cmd));
    if m.cmd == Replying(START) { ReplyIsAwaited(s, i, START); }
    if m.cmd == Replying(END) { ReplyIsAwaited(s, i, END); }
    HeardLimit(s.host, m, cmd);
  }

  lemma CutAnswer(s: System, i: nat, r: D.Handled, cmd: Byte)
    requires i < |s.up| && s.up[i].cmd < ACK_FLAG && r.reply.cmd == Replying(s.up[i].cmd)
    requires IsCommand(cmd) && Cut(s, cmd)
    ensures Cut(s.(device := r.device, up := Without(s.up, i), down := s.down + [r.reply]), cmd)
  {
    AnswerPending(s, i, r.reply, cmd);
  }

  lemma CutToDevice(s: System, d0: D.Device, i: nat, cmd: Byte)
    requires Inv(s, d0) && i < |s.up| && IsCommand(cmd) && Cut(s, cmd)
    ensures Cut(Step(s, ToDevice(i)), cmd)
  {
    FrameFair(s, d0, i);
    CutAnswer(s, i, D.HandleOta(s.device, s.up[i]), cmd);
  }

  lemma CutStays(s: System, d0: D.Device, a: Action, cmd: Byte)
    requires Inv(s, d0) && Enabled(s, a) && IsCommand(cmd) && Cut(s, cmd)
    ensures Cut(Step(s, a), cmd)
  {
    match a
    case HostTick => CutTick(s, cmd);
    case ToDevice(i) => CutToDevice(s, d0, i, cmd);
    case ToHost(i) => CutToHost(s, d0, i, cmd);
    case LoseUp(i) => CountWithout(s.up, i, cmd);
    case LoseDown(i) => CountWithout(s.down, i, Replying(cmd));
  }

  lemma BrokenStays(s: System, d0: D.Device, a: Action)
    requires Inv(s, d0) && Enabled(s, a) && Broken(s)
    ensures Broken(Step(s, a))
  {
    if Cut(s, START) {
      CutStays(s, d0, a, START);
    } else if Cut(s, END) {
      CutStays(s, d0, a, END);
    } else {
      CutStays(s, d0, a, VERIFY);
    }
  }

  /** A refused host goes on refusing, whatever it still sends. */
  lemma RefusedTick(h: H.Host)
    requires H.Valid(h.plan) && Ordered(h.phases) && h.plan.connected && Refused(h)
    ensures Refused(H.Tick(h).host) && H.Tick(h).status != H.Success
  {
    H.TickIs(h);
  }

  predicate Stuck(s: System) { Refused(s.host) && !SomeReopens(s) }

  lemma StuckToHost(s: System, d0: D.Device, i: nat)
    requires Inv(s, d0) && Stuck(s) && i < |s.down|
    ensures Stuck(Step(s, ToHost(i)))
  {
    var m := s.down[i];
    assert Truthful(m, s.device, d0, s.host.plan) && !Reopens(m, s.host.plan);
    if m.cmd == Replying(START) { ReplyIsAwaited(s, i, START); }
    if m.cmd == Replying(END) { ReplyIsAwaited(s, i, END); }
    var down := Without(s.down, i);
    forall k | 0 <= k < |down| ensures !Reopens(down[k], s.host.plan) {
      assert down[k] == s.down[if k < i then k else k + 1];
    }
  }

  lemma StuckAnswer(s: System, r: D.Handled, t: System)
    requires WellFormed(s) && Sized(s) && DeviceFits(r.device) && FairStep(s.device, r, s.host.plan)
    requires Stuck(s) && s.device.state != D.Idle && t.host == s.host && t.down == s.down + [r.reply]
    ensures Stuck(t)
  {
  }

  lemma StuckToDevice(s: System, d0: D.Device, i: nat)
    requires Inv(s, d0) && Sized(s) && Stuck(s) && i < |s.up|
    ensures Stuck(Step(s, ToDevice(i)))
  {
    FrameFair(s, d0, i);
    StuckAnswer(s, D.HandleOta(s.device, s.up[i]), Step(s, ToDevice(i)));
  }

  lemma StuckStays(s: System, d0: D.Device, a: Action)
    requires Inv(s, d0) && Sized(s) && Enabled(s, a) && Stuck(s)
    ensures Stuck(Step(s, a))
  {
    match a
    case HostTick => RefusedTick(s.host);
    case ToDevice(i) => StuckToDevice(s, d0, i);
    case ToHost(i) => StuckToHost(s, d0, i);
    case LoseUp(i) =>
    case LoseDown(i) => FewerAreSome(s.down, Without(s.down, i));
  }

  lemma HopelessStays(s: System, d0: D.Device, a: Action)
    requires Inv(s, d0) && Sized(s) && Enabled(s, a) && !Hopeful(s)
    ensures WellFormed(Step(s, a)) && !Hopeful(Step(s, a))
  {
    StepWellFormed(s, a);
    if Broken(s) {
      BrokenStays(s, d0, a);
    } else if Stuck(s) {
      StuckStays(s, d0, a);
    } else if a.ToDevice? {
      FrameFair(s, d0, a.i);
    }
  }

  lemma ReportsAreHopeful(s: System, d0: D.Device)
    requires Inv(s, d0) && Reports(s)
    ensures Hopeful(s)
  {
    TickKeeps(s, d0);
    BegunRuns(s.device, d0, s.host.plan);
    RunningIsStarted(s.device, s.host.plan);
    if Cut(s, START) { CutTick(s, START); }
    if Cut(s, END) { CutTick(s, END); }
    if Cut(s, VERIFY) { CutTick(s, VERIFY); }
    if Refused(s.host) { RefusedTick(s.host); }
  }

  lemma {:induction false} SuccessWasHopeful(s: System, d0: D.Device, actions: seq<Action>)
    requires Inv(s, d0) && Sized(s) && Reports(Run(s, actions))
    ensures Hopeful(s)
    decreases |actions|
  {
    if actions == [] {
      ReportsAreHopeful(s, d0);
    } else if !Enabled(s, actions[0]) {
      SuccessWasHopeful(s, d0, actions[1..]);
    } else {
      StepKeeps(s, d0, actions[0]);
      StepSized(s, d0, actions[0]);
      SuccessWasHopeful(Step(s, actions[0]), d0, actions[1..]);
      if !Hopeful(s) {
        HopelessStays(s, d0, actions[0]);
      }
    }
  }
}
