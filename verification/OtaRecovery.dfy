/** After losses: when an upgrade can still end in success, exactly. */
module OtaRecovery {
  import opened Octets
  import opened Frames
  import opened OtaWire
  import opened OtaLink
  import opened OtaTrack
  import opened OtaSafety
  import opened OtaLanding
  import opened OtaUpgrade
  import opened OtaReuse
  import opened OtaStandstill
  import H = OtaHost
  import D = OtaDevice

  // ---------------------------------------------------------------- the last rounds

  lemma CanSucceedFrom(s: System, actions: seq<Action>, t: System)
    requires WellFormed(s) && Run(s, actions) == t && CanSucceed(t)
    ensures CanSucceed(s)
  {
    var rest :| Reports(Run(t, rest));
    RunJoin(s, actions, rest);
    assert Reports(Run(s, actions + rest));
  }

  lemma RunOne(s: System, a: Action)
    requires WellFormed(s) && Enabled(s, a)
    ensures WellFormed(Step(s, a)) && Run(s, [a]) == Step(s, a)
  {
    StepWellFormed(s, a);
    assert [a][1..] == [];
    assert Run(Step(s, a), []) == Step(s, a);
  }

  /** Two ticks from a verdict to the report of a success. */
  lemma TwoTicks(s: System)
    requires WellFormed(s) && H.Tick(H.Tick(s.host).host).status == H.Success
    ensures CanSucceed(s)
  {
    RunOne(s, HostTick);
    assert Reports(Run(s, [HostTick]));
  }

  /** END was refused with bytes to send again. */
  predicate Rewinds(h: H.Host) {
    && H.Valid(h.plan) && h.plan.connected && h.phases == H.Phases(H.Done, H.Wait, H.Send)
    && h.reply.ackReceived && h.reply.lastStatus != SUCCESS && h.reply.lastReceived < |h.plan.fw|
    && !h.reply.nak && h.offset >= |h.plan.fw|
  }

  lemma RewindTick(h: H.Host)
    requires Rewinds(h)
    ensures var r := H.Tick(h);
            && r.status == H.Running && r.sent == [] && Sending(r.host) && Aim(r.host) == h.reply.lastReceived
            && r.host.plan == h.plan
  {
    H.TickIs(h);
  }

  lemma RewindRun(s: System) returns (t: System)
    requires WellFormed(s) && Rewinds(s.host)
    ensures Takes(s, [HostTick], t) && t == s.(host := t.host) && t.host.plan == s.host.plan
    ensures Sending(t.host) && Aim(t.host) == s.host.reply.lastReceived
  {
    RewindTick(s.host);
    TakesOne(s, HostTick);
    t := s.(host := H.Tick(s.host).host);
    assert Step(s, HostTick) == t;
  }

  /** END before the last byte: the host is told how much the device has, and goes on from there. */
  lemma EndRefused(s: System) returns (actions: seq<Action>, t: System)
    requires Poised(s, Aim(s.host)) && Aim(s.host) >= |s.host.plan.fw|
    requires Running(s.device) && s.device.received != s.device.total && s.device.received < |s.host.plan.fw|
    ensures Takes(s, actions, t) && Poised(t, s.device.received) && t.host.plan == s.host.plan && t.device == s.device
  {
    EndTick(s.host);
    EndHandled(s.device);
    Exchange(s, EndFrame(), D.HandleOta(s.device, EndFrame()));
    AckHeard(H.Tick(s.host).host, END, PARAM_ERR, s.device.received);
    var u := System(H.OnResponse(H.Tick(s.host).host, AckFrame(END, PARAM_ERR, s.device.received)), s.device, [], []);
    t := RewindRun(u);
    TakesJoin(s, ROUND, u, [HostTick], t);
    actions := ROUND + [HostTick];
  }

  lemma TotalSucceeds(s: System)
    requires Poised(s, Aim(s.host)) && Running(s.device) && s.device.received == s.device.total
    ensures CanSucceed(s)
  {
    var actions, t := CloseRun(s);
    FailedVerifyIsForgotten(t.host, Agrees(t.device));
    TwoTicks(t);
    CanSucceedFrom(s, actions, t);
  }

  lemma TransferSucceeds(s: System)
    requires Poised(s, s.device.received) && s.device.state == D.Receiving && Lands(s.device, s.host.plan)
    ensures CanSucceed(s)
  {
    var b := s.device;
    assert OnTrack(b, b, s.host.plan);
    var actions, t := Transfer(s, b, b.received, b.total);
    TotalSucceeds(t);
    CanSucceedFrom(s, actions, t);
  }

  lemma PoisedSucceeds(s: System)
    requires Poised(s, Aim(s.host)) && Running(s.device) && Lands(s.device, s.host.plan)
    ensures CanSucceed(s)
  {
    var d := s.device;
    if d.received == d.total {
      TotalSucceeds(s);
    } else {
      LeadsBound(d, s.host.plan, d.received, d.total);
      var lost, u := LoseRest(s, Aim(s.host));
      var back, t := EndRefused(u);
      TransferSucceeds(t);
      CanSucceedFrom(u, back, t);
      CanSucceedFrom(s, lost, u);
    }
  }

  // ---------------------------------------------------------------- a quiet link

  /** Nothing is awaited, END is not refused for good, and the device can land. */
  predicate Calm(s: System)
    requires WellFormed(s)
  {
    && !Awaits(s.host, START) && !Awaits(s.host, END) && !Awaits(s.host, VERIFY)
    && !Refused(s.host) && CanLand(s.device, s.host.plan)
  }

  /** START is acknowledged, and the retries have not run out. */
  predicate Streaming(h: H.Host) {
    && H.Valid(h.plan) && h.plan.connected && Ordered(h.phases) && h.phases.start != H.Send
    && (h.phases.start == H.Wait ==> h.reply.ackReceived && h.reply.lastStatus == SUCCESS)
    && (h.reply.nak ==> h.retries.chunk < 3)
  }

  lemma StreamTick(h: H.Host)
    requires Streaming(h) && Aim(h) < |h.plan.fw|
    ensures var r, k := H.Tick(h), Aim(h);
            && r.status == H.Running && r.sent == [DataFrame(k, H.ChunkAt(h.plan, k))] && Streaming(r.host)
            && r.host.plan == h.plan && r.host.phases == h.phases.(start := H.Done) && r.host.verdict == h.verdict
            && r.host.reply == h.reply.(nak := false) && Aim(r.host) == k + H.LenAt(h.plan, k)
  {
    H.TickIs(h);
  }

  lemma VerifySent(h: H.Host)
    requires Streaming(h) && Aim(h) >= |h.plan.fw| && h.phases.verify == H.Send && h.phases.end != H.Send
    requires h.phases.end == H.Wait ==> h.reply.ackReceived && h.reply.lastStatus == SUCCESS
    ensures var r := H.Tick(h);
            && r.status == H.Running && r.sent == [VerifyFrame()] && r.host.plan == h.plan
            && r.host.phases == H.Phases(H.Done, H.Done, H.Wait) && !r.host.reply.nak && r.host.offset >= |h.plan.fw|
  {
    H.TickIs(h);
  }

  lemma VerifySucceeds(s: System)
    requires WellFormed(s) && Quiet(s) && Running(s.device)
    requires Streaming(s.host) && Aim(s.host) >= |s.host.plan.fw|
    requires s.host.phases.verify == H.Send && s.host.phases.end != H.Send
    requires s.host.phases.end == H.Wait ==> s.host.reply.ackReceived && s.host.reply.lastStatus == SUCCESS
    ensures CanSucceed(s)
  {
    VerifySent(s.host);
    VerifyHandled(s.device);
    var ok, e, h := Agrees(s.device), AfterVerify(s.device), H.Tick(s.host).host;
    var reply := VerifyReply(if ok then SUCCESS else CRC_ERR, e.calcCrc);
    Exchange(s, VerifyFrame(), D.Handled(e, reply));
    VerdictHeard(h, if ok then SUCCESS else CRC_ERR, e.calcCrc);
    var t := System(H.OnResponse(h, reply), e, [], []);
    FailedVerifyIsForgotten(t.host, ok);
    TwoTicks(t);
    CanSucceedFrom(s, ROUND, t);
  }

  lemma VerdictTicks(h: H.Host)
    requires Streaming(h) && Aim(h) >= |h.plan.fw| && h.phases.end == H.Done && h.phases.verify != H.Send
    requires h.phases.verify == H.Wait ==> h.verdict.received
    ensures H.Tick(H.Tick(h).host).status == H.Success
  {
    H.TickIs(h);
    H.TickIs(H.Tick(h).host);
  }

  lemma FinishSucceeds(s: System, d0: D.Device)
    requires Inv(s, d0) && Quiet(s) && Calm(s) && Streaming(s.host) && Aim(s.host) >= |s.host.plan.fw|
    ensures CanSucceed(s)
  {
    var h := s.host;
    BegunRuns(s.device, d0, h.plan);
    RunningIsStarted(s.device, h.plan);
    if h.phases.end == H.Send {
      PoisedSucceeds(s);
    } else if h.phases.end == H.Wait && h.reply.lastStatus != SUCCESS {
      var t := RewindRun(s);
      PoisedSucceeds(t);
      CanSucceedFrom(s, [HostTick], t);
    } else if h.phases.verify == H.Send {
      VerifySucceeds(s);
    } else {
      VerdictTicks(h);
      TwoTicks(s);
    }
  }

  lemma {:induction false} StreamingSucceeds(s: System, d0: D.Device)
    requires Inv(s, d0) && Quiet(s) && Calm(s) && Streaming(s.host)
    ensures CanSucceed(s)
    decreases |s.host.plan.fw| - Aim(s.host)
  {
    var k := Aim(s.host);
    if k >= |s.host.plan.fw| {
      FinishSucceeds(s, d0);
    } else {
      StreamTick(s.host);
      Dropped(s, DataFrame(k, H.ChunkAt(s.host.plan, k)));
      RunKeeps(s, d0, DROP);
      var t := s.(host := H.Tick(s.host).host);
      StreamingSucceeds(t, d0);
      CanSucceedFrom(s, DROP, t);
    }
  }

  /** Retries that have run out fail one tick and are forgotten. */
  lemma ExhaustedTick(h: H.Host)
    requires H.Valid(h.plan) && h.plan.connected && Ordered(h.phases) && h.phases.start != H.Send
    requires h.phases.start == H.Wait ==> h.reply.ackReceived && h.reply.lastStatus == SUCCESS
    requires h.reply.nak && h.retries.chunk >= 3
    ensures var r := H.Tick(h);
            && r.status == H.Failure && r.sent == [] && Streaming(r.host) && r.host.plan == h.plan
            && r.host.verdict == h.verdict && r.host.phases == h.phases.(start := H.Done)
            && r.host.reply == h.reply.(nak := false)
  {
    H.TickIs(h);
  }

  lemma AcknowledgedSucceeds(s: System, d0: D.Device)
    requires Inv(s, d0) && Quiet(s) && Calm(s) && s.host.phases.start != H.Send
    ensures CanSucceed(s)
  {
    if Streaming(s.host) {
      StreamingSucceeds(s, d0);
    } else {
      ExhaustedTick(s.host);
      RunOne(s, HostTick);
      StepKeeps(s, d0, HostTick);
      var t := s.(host := H.Tick(s.host).host);
      assert Step(s, HostTick) == t;
      StreamingSucceeds(t, d0);
      CanSucceedFrom(s, [HostTick], t);
    }
  }

  lemma StartAgain(h: H.Host)
    requires H.Valid(h.plan) && h.plan.connected && h.phases.start == H.Send
    ensures var r := H.Tick(h);
            && r.status == H.Running && r.sent == [StartFrame(|h.plan.fw|, h.plan.start, h.plan.crc)]
            && r.host.plan == h.plan && r.host.phases == h.phases.(start := H.Wait)
  {
    H.TickIs(h);
  }

  lemma QuietSucceeds(s: System, d0: D.Device)
    requires Inv(s, d0) && Quiet(s) && Calm(s)
    ensures CanSucceed(s)
  {
    if s.host.phases.start != H.Send {
      AcknowledgedSucceeds(s, d0);
    } else {
      var plan, b := s.host.plan, Started(s.device, s.host.plan);
      StartAgain(s.host);
      StartHandled(s.device, plan);
      var reply := AckFrame(START, SUCCESS, b.received);
      Exchange(s, StartFrame(|plan.fw|, plan.start, plan.crc), D.Handled(b, reply));
      AckHeard(H.Tick(s.host).host, START, SUCCESS, b.received);
      RunKeeps(s, d0, ROUND);
      var t := System(H.OnResponse(H.Tick(s.host).host, reply), b, [], []);
      StartedTwice(s.device, plan);
      AcknowledgedSucceeds(t, d0);
      CanSucceedFrom(s, ROUND, t);
    }
  }

  // ---------------------------------------------------------------- what is still under way

  /** What is under way and not awaited may as well be lost. */
  lemma {:induction false} CalmSucceeds(s: System, d0: D.Device)
    requires Inv(s, d0) && Calm(s)
    ensures CanSucceed(s)
    decreases |s.up| + |s.down|
  {
    if Quiet(s) {
      QuietSucceeds(s, d0);
    } else {
      var a := if s.up != [] then LoseUp(0) else LoseDown(0);
      RunOne(s, a);
      StepKeeps(s, d0, a);
      CalmSucceeds(Step(s, a), d0);
      CanSucceedFrom(s, [a], Step(s, a));
    }
  }

  lemma ReopenedIsCalm(s: System, i: nat)
    requires WellFormed(s) && Ordered(s.host.phases) && CanLand(s.device, s.host.plan) && Refused(s.host)
    requires i < |s.down| && s.down[i].cls == OTA_CLASS && Reopens(s.down[i], s.host.plan)
    ensures WellFormed(Step(s, ToHost(i))) && Calm(Step(s, ToHost(i)))
  {
    StepWellFormed(s, ToHost(i));
  }

  lemma HeardIsCalm(s: System, d0: D.Device, i: nat, cmd: Byte)
    requires Inv(s, d0) && Sized(s) && CanLand(s.device, s.host.plan) && IsCommand(cmd) && Awaits(s.host, cmd)
    requires i < |s.down| && s.down[i].cmd == Replying(cmd)
    ensures WellFormed(Step(s, ToHost(i))) && Calm(Step(s, ToHost(i)))
  {
    StepWellFormed(s, ToHost(i));
    assert Truthful(s.down[i], s.device, d0, s.host.plan) && FairReply(s.down[i], s.device, s.host.plan);
  }

  lemma HeardSucceeds(s: System, d0: D.Device, i: nat)
    requires Inv(s, d0) && i < |s.down| && WellFormed(Step(s, ToHost(i))) && Calm(Step(s, ToHost(i)))
    ensures CanSucceed(s)
  {
    RunOne(s, ToHost(i));
    StepKeeps(s, d0, ToHost(i));
    CalmSucceeds(Step(s, ToHost(i)), d0);
    CanSucceedFrom(s, [ToHost(i)], Step(s, ToHost(i)));
  }

  lemma {:induction false} CountedAt(s: seq<Message>, cmd: Byte) returns (i: nat)
    requires Count(s, cmd) > 0
    ensures i < |s| && s[i].cmd == cmd
  {
    if s[0].cmd == cmd {
      i := 0;
    } else {
      var k := CountedAt(s[1..], cmd);
      i := k + 1;
    }
  }

  lemma AnsweredSucceeds(s: System, d0: D.Device, i: nat, cmd: Byte)
    requires Inv(s, d0) && Sized(s) && CanLand(s.device, s.host.plan) && IsCommand(cmd) && Awaits(s.host, cmd)
    requires i < |s.up| && s.up[i].cmd == cmd
    ensures CanSucceed(s)
  {
    var t := Step(s, ToDevice(i));
    FrameFair(s, d0, i);
    RunOne(s, ToDevice(i));
    StepKeeps(s, d0, ToDevice(i));
    ToDeviceSized(s, d0, i);
    HeardIsCalm(t, d0, |s.down|, cmd);
    HeardSucceeds(t, d0, |s.down|);
    CanSucceedFrom(s, [ToDevice(i)], t);
  }

  lemma AwaitedSucceeds(s: System, d0: D.Device, cmd: Byte)
    requires Inv(s, d0) && Sized(s) && CanLand(s.device, s.host.plan) && IsCommand(cmd) && Awaits(s.host, cmd)
    requires Pending(s, cmd) > 0
    ensures CanSucceed(s)
  {
    if Count(s.down, Replying(cmd)) > 0 {
      var i := CountedAt(s.down, Replying(cmd));
      HeardIsCalm(s, d0, i, cmd);
      HeardSucceeds(s, d0, i);
    } else {
      var i := CountedAt(s.up, cmd);
      AnsweredSucceeds(s, d0, i, cmd);
    }
  }

  lemma HopefulSucceeds(s: System, d0: D.Device)
    requires Inv(s, d0) && Sized(s) && Hopeful(s)
    ensures CanSucceed(s)
  {
    if Refused(s.host) {
      var i: nat :| i < |s.down| && Reopens(s.down[i], s.host.plan);
      assert Truthful(s.down[i], s.device, d0, s.host.plan);
      ReopenedIsCalm(s, i);
      HeardSucceeds(s, d0, i);
    } else if Awaits(s.host, START) {
      AwaitedSucceeds(s, d0, START);
    } else if Awaits(s.host, END) {
      AwaitedSucceeds(s, d0, END);
    } else if Awaits(s.host, VERIFY) {
      AwaitedSucceeds(s, d0, VERIFY);
    } else {
      CalmSucceeds(s, d0);
    }
  }

  // ---------------------------------------------------------------- the exact condition

  lemma {:induction false} RunSized(s: System, d0: D.Device, actions: seq<Action>)
    requires Inv(s, d0) && Sized(s)
    ensures Inv(Run(s, actions), d0) && Sized(Run(s, actions))
    decreases |actions|
  {
    if actions != [] {
      if Enabled(s, actions[0]) {
        StepKeeps(s, d0, actions[0]);
        StepSized(s, d0, actions[0]);
        RunSized(Step(s, actions[0]), d0, actions[1..]);
      } else {
        RunSized(s, d0, actions[1..]);
      }
    }
  }

  /** In every state of every upgrade, whatever has been lost before: a success can still be reported exactly if no
      awaited command has been lost with its answer, the device can land, and a host whose END was refused with
      nothing to send again has a refused chunk to hear of. */
  lemma CanSucceedIff(plan: H.Plan, d: D.Device, actions: seq<Action>)
    requires Ready(plan) && DeviceFits(d)
    ensures var s := Run(Begin(plan, d), actions);
            CanSucceed(s) <==>
              && !Cut(s, START) && !Cut(s, END) && !Cut(s, VERIFY)
              && CanLand(s.device, plan)
              && (Refused(s.host) ==> SomeReopens(s))
  {
    var s := Run(Begin(plan, d), actions);
    BeginInv(plan, d);
    RunSized(Begin(plan, d), d, actions);
    if CanSucceed(s) {
      var rest :| Reports(Run(s, rest));
      SuccessWasHopeful(s, d, rest);
    }
    if Hopeful(s) {
      HopefulSucceeds(s, d);
    }
  }

  /** Before the first tick only the device counts. */
  lemma CanSucceedAtAllIff(plan: H.Plan, d: D.Device)
    requires Ready(plan) && DeviceFits(d)
    ensures CanSucceed(Begin(plan, d)) <==> CanLand(d, plan)
  {
    CanSucceedIff(plan, d, []);
  }

  lemma RoomLands(e: D.Device, d: D.Device, plan: H.Plan)
    requires Ready(plan) && DeviceFits(d) && d.state == D.Idle && HasRoom(d, plan) && (e == d || Begun(e, d, plan))
    ensures DeviceFits(e) && CanLand(e, plan)
  {
    var b := Started(d, plan);
    IdleStarted(d, plan);
    RoomIsReceiving(d, plan);
    if e == d {
      LeadsToTheEnd(b, plan, 0);
    } else {
      RunningIsStarted(e, plan);
      LeadsBound(b, plan, 0, e.received);
      if e.state == D.Receiving {
        LeadsToTheEnd(e, plan, e.received);
      }
    }
  }

  /** An upgrade that found the device idle and with room can still succeed exactly if what the host waits for is under
      way, and what END reported can be sent again. */
  lemma IdleCanSucceedIff(plan: H.Plan, d: D.Device, actions: seq<Action>)
    requires Ready(plan) && DeviceFits(d) && d.state == D.Idle && HasRoom(d, plan)
    ensures var s := Run(Begin(plan, d), actions);
            CanSucceed(s) <==>
              && !Cut(s, START) && !Cut(s, END) && !Cut(s, VERIFY)
              && (Refused(s.host) ==> SomeReopens(s))
  {
    BeginInv(plan, d);
    RunKeeps(Begin(plan, d), d, actions);
    CanSucceedIff(plan, d, actions);
    RoomLands(Run(Begin(plan, d), actions).device, d, plan);
  }

  /** A lost START leaves the host running for ever: no tick sends anything or says anything else. */
  lemma {:induction false} LostStartRunsForever(s: System, d0: D.Device, actions: seq<Action>)
    requires Inv(s, d0) && Cut(s, START)
    ensures H.Tick(Run(s, actions).host) == H.Outcome(Run(s, actions).host, H.Running, [])
    decreases |actions|
  {
    if actions == [] {
      WaitsForStart(s.host);
    } else if Enabled(s, actions[0]) {
      StepKeeps(s, d0, actions[0]);
      CutStays(s, d0, actions[0], START);
      LostStartRunsForever(Step(s, actions[0]), d0, actions[1..]);
    } else {
      LostStartRunsForever(s, d0, actions[1..]);
    }
  }

  lemma LostStart(plan: H.Plan, d: D.Device)
    requires Ready(plan) && DeviceFits(d)
    ensures Cut(Run(Begin(plan, d), DROP), START)
  {
    StartTick(plan);
    Dropped(Begin(plan, d), StartFrame(|plan.fw|, plan.start, plan.crc));
  }

  // ---------------------------------------------------------------- a refusal that comes too early

  predicate Lossless(actions: seq<Action>) {
    forall i :: 0 <= i < |actions| ==> !actions[i].LoseUp? && !actions[i].LoseDown?
  }

  lemma TakesTick(s: System, m: Message)
    requires WellFormed(s) && H.Tick(s.host).sent == [m] && H.Tick(s.host).status != H.Failure
    ensures Takes(s, [HostTick], s.(host := H.Tick(s.host).host, up := s.up + [m]))
  {
    TakesOne(s, HostTick);
  }

  lemma TakesDelivery(s: System, i: nat, r: D.Handled)
    requires WellFormed(s) && i < |s.up| && r == D.HandleOta(s.device, s.up[i])
    ensures Takes(s, [ToDevice(i)], System(s.host, r.device, Without(s.up, i), s.down + [r.reply]))
  {
    TakesOne(s, ToDevice(i));
  }

  /** END reaches the device before anything else: it is refused, and what was sent before is still under way. */
  lemma EndOvertakes(s: System) returns (actions: seq<Action>, t: System)
    requires WellFormed(s) && s.down == [] && Sending(s.host) && Aim(s.host) >= |s.host.plan.fw|
    requires Running(s.device) && s.device.received != s.device.total && s.device.received < |s.host.plan.fw|
    ensures Takes(s, actions, t) && Lossless(actions) && t == s.(host := t.host) && t.host.plan == s.host.plan
    ensures Rewinds(t.host) && t.host.reply.lastReceived == s.device.received
  {
    var n, refusal := |s.up|, AckFrame(END, PARAM_ERR, s.device.received);
    EndTick(s.host);
    var h := H.Tick(s.host).host;
    TakesTick(s, EndFrame());
    var s1 := System(h, s.device, s.up + [EndFrame()], []);
    EndHandled(s.device);
    TakesDelivery(s1, n, D.Handled(s.device, refusal));
    var s2 := System(h, s.device, s.up, [refusal]);
    assert Without(s1.up, n) == s.up && [] + [refusal] == [refusal];
    AckHeard(h, END, PARAM_ERR, s.device.received);
    TakesOne(s2, ToHost(0));
    t := System(H.OnResponse(h, refusal), s.device, s.up, []);
    assert Step(s2, ToHost(0)) == t;
    TakesJoin(s1, [ToDevice(n)], s2, [ToHost(0)], t);
    TakesJoin(s, [HostTick], s1, [ToDevice(n)] + [ToHost(0)], t);
    actions := [HostTick] + ([ToDevice(n)] + [ToHost(0)]);
  }

  /** A firmware of one chunk: the chunk is sent, and END overtakes it. */
  lemma ChunkOvertaken(s: System) returns (actions: seq<Action>, t: System)
    requires WellFormed(s) && s.down == [] && Sending(s.host) && Aim(s.host) == 0
    requires |s.host.plan.fw| <= s.host.plan.chunkSize
    requires Running(s.device) && s.device.received == 0 < s.device.total
    ensures Takes(s, actions, t) && Lossless(actions) && t.device == s.device && t.down == []
    ensures t.host.plan == s.host.plan && t.up == s.up + [DataFrame(0, H.ChunkAt(s.host.plan, 0))]
    ensures Rewinds(t.host) && t.host.reply.lastReceived == 0
  {
    var m := DataFrame(0, H.ChunkAt(s.host.plan, 0));
    ChunkTick(s.host);
    TakesTick(s, m);
    var u := s.(host := H.Tick(s.host).host, up := s.up + [m]);
    var rest;
    rest, t := EndOvertakes(u);
    TakesJoin(s, [HostTick], u, rest, t);
    actions := [HostTick] + rest;
  }

  lemma FirstCopy(s: System, m: Message)
    requires WellFormed(s) && s.down == [] && s.up == [m, m] && m == DataFrame(0, H.ChunkAt(s.host.plan, 0))
    requires Copied(s.device, s.host.plan)
    ensures var plan, e := s.host.plan, AfterChunk(s.device, s.host.plan, 0);
            && e.received == |plan.fw|
            && Takes(s, [ToDevice(0)], System(s.host, e, [m], [AckFrame(DATA, SUCCESS, |plan.fw|)]))
  {
    var e, taken := AfterChunk(s.device, s.host.plan, 0), AckFrame(DATA, SUCCESS, |s.host.plan.fw|);
    ChunkHandled(s.device, s.host.plan, 0);
    TakesDelivery(s, 0, D.Handled(e, taken));
    assert Without([m, m], 0) == [m] && [] + [taken] == [taken];
  }

  lemma SecondCopy(s: System, m: Message, taken: Message)
    requires WellFormed(s) && s.down == [taken] && s.up == [m] && m == DataFrame(0, H.ChunkAt(s.host.plan, 0))
    requires Running(s.device) && s.device.received == |s.host.plan.fw|
    ensures Takes(s, [ToDevice(0)],
                  System(s.host, s.device, [], [taken, AckFrame(DATA, PARAM_ERR, |s.host.plan.fw|)]))
  {
    var refused := AckFrame(DATA, PARAM_ERR, |s.host.plan.fw|);
    ChunkHandled(s.device, s.host.plan, 0);
    TakesDelivery(s, 0, D.Handled(s.device, refused));
    assert Without([m], 0) == [] && [taken] + [refused] == [taken, refused];
  }

  lemma RefusalSticks(s: System, taken: Message) returns (t: System)
    requires WellFormed(s) && Rewinds(s.host) && taken == AckFrame(DATA, SUCCESS, |s.host.plan.fw|)
    requires s.down == [taken, AckFrame(DATA, PARAM_ERR, |s.host.plan.fw|)]
    ensures Takes(s, [ToHost(1)], t) && Stuck(t) && t.host.plan == s.host.plan && t.device == s.device
  {
    var size := |s.host.plan.fw|;
    DataHeard(s.host, PARAM_ERR, size);
    TakesOne(s, ToHost(1));
    t := Step(s, ToHost(1));
    assert Without(s.down, 1) == [taken];
    AckIsSized(DATA, SUCCESS, size);
  }

  /** The device is about to store a firmware of one chunk. */
  predicate Copied(d: D.Device, plan: H.Plan) {
    && |plan.fw| <= plan.chunkSize
    && d.state == D.Receiving && d.received == 0 && d.start + |plan.fw| <= |d.flash|
  }

  /** The same chunk twice: the first is stored, and the refusal of the second reports the whole firmware. */
  lemma ChunkTwice(s: System, m: Message) returns (actions: seq<Action>, t: System)
    requires WellFormed(s) && s.down == [] && s.up == [m, m] && m == DataFrame(0, H.ChunkAt(s.host.plan, 0))
    requires Copied(s.device, s.host.plan) && Rewinds(s.host)
    ensures Takes(s, actions, t) && Lossless(actions) && Stuck(t) && t.host.plan == s.host.plan
    ensures t.device == AfterChunk(s.device, s.host.plan, 0)
  {
    var plan, e := s.host.plan, AfterChunk(s.device, s.host.plan, 0);
    var taken, refused := AckFrame(DATA, SUCCESS, |plan.fw|), AckFrame(DATA, PARAM_ERR, |plan.fw|);
    FirstCopy(s, m);
    var s1 := System(s.host, e, [m], [taken]);
    SecondCopy(s1, m, taken);
    var s2 := System(s.host, e, [], [taken, refused]);
    t := RefusalSticks(s2, taken);
    TakesJoin(s1, [ToDevice(0)], s2, [ToHost(1)], t);
    TakesJoin(s, [ToDevice(0)], s1, [ToDevice(0)] + [ToHost(1)], t);
    actions := [ToDevice(0)] + ([ToDevice(0)] + [ToHost(1)]);
  }

  /** Two chunks overtaken by END. */
  lemma OvertakenTwice(s: System) returns (actions: seq<Action>, t: System)
    requires Poised(s, 0) && |s.host.plan.fw| <= s.host.plan.chunkSize
    requires Running(s.device) && s.device.received == 0 < s.device.total
    ensures Takes(s, actions, t) && Lossless(actions) && t.device == s.device && t.down == []
    ensures t.host.plan == s.host.plan && Rewinds(t.host)
    ensures t.up == [DataFrame(0, H.ChunkAt(s.host.plan, 0)), DataFrame(0, H.ChunkAt(s.host.plan, 0))]
  {
    var first, u := ChunkOvertaken(s);
    var v := RewindRun(u);
    var second;
    second, t := ChunkOvertaken(v);
    TakesJoin(u, [HostTick], v, second, t);
    TakesJoin(s, first, u, [HostTick] + second, t);
    actions := first + ([HostTick] + second);
  }

  lemma TwoChunksOut(plan: H.Plan, d: D.Device) returns (actions: seq<Action>, t: System)
    requires Ready(plan) && DeviceFits(d) && d.state == D.Idle && |plan.fw| <= plan.chunkSize
    ensures Takes(Begin(plan, d), actions, t) && Lossless(actions) && t.device == Started(d, plan) && t.down == []
    ensures t.host.plan == plan && Rewinds(t.host)
    ensures t.up == [DataFrame(0, H.ChunkAt(plan, 0)), DataFrame(0, H.ChunkAt(plan, 0))]
  {
    IdleStarted(d, plan);
    var start, s := StartRound(plan, d);
    var rest;
    rest, t := OvertakenTwice(s);
    TakesJoin(Begin(plan, d), start, s, rest, t);
    actions := start + rest;
  }

  /** Nothing is lost, no tick fails and the whole firmware is in flash, and still no success can be reported any more:
      END came too early and was refused, and before the host looks at the refusal it hears of a refused chunk that
      there is nothing to send again. */
  lemma EarlyEndSticks(plan: H.Plan, d: D.Device) returns (actions: seq<Action>, t: System)
    requires Ready(plan) && DeviceFits(d) && d.state == D.Idle && HasRoom(d, plan) && |plan.fw| <= plan.chunkSize
    ensures Takes(Begin(plan, d), actions, t) && Lossless(actions)
    ensures t.device.received == t.device.total && Written(t.device.flash, plan) && !CanSucceed(t)
  {
    var b := Started(d, plan);
    IdleStarted(d, plan);
    RoomIsReceiving(d, plan);
    var first, s := TwoChunksOut(plan, d);
    var rest;
    rest, t := ChunkTwice(s, s.up[0]);
    TakesJoin(Begin(plan, d), first, s, rest, t);
    actions := first + rest;
    FreshLandingIsWritten(b, plan);
    CanSucceedIff(plan, d, actions);
  }
}
