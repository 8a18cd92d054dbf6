/** Runs that end an upgrade: how a host brings a session to its total, and what it reports then. */
module OtaLanding {
  import opened Octets
  import opened Frames
  import opened OtaWire
  import opened OtaLink
  import opened OtaTrack
  import H = OtaHost
  import D = OtaDevice

  // ---------------------------------------------------------------- short runs

  predicate Quiet(s: System) { s.up == [] && s.down == [] }

  /** `actions` lead from `s` to `t`, and no tick among them fails. */
  predicate Takes(s: System, actions: seq<Action>, t: System) {
    WellFormed(s) && Run(s, actions) == t && NoFailure(s, actions)
  }

  lemma {:induction false} TakesJoin(s: System, a: seq<Action>, t: System, b: seq<Action>, u: System)
    requires Takes(s, a, t) && Takes(t, b, u)
    ensures Takes(s, a + b, u)
    decreases |a|
  {
    if a == [] {
      assert a + b == b;
    } else {
      assert (a + b)[1..] == a[1..] + b;
      if Enabled(s, a[0]) {
        StepWellFormed(s, a[0]);
        TakesJoin(Step(s, a[0]), a[1..], t, b, u);
      } else {
        TakesJoin(s, a[1..], t, b, u);
      }
    }
  }

  lemma TakesOne(s: System, a: Action)
    requires WellFormed(s) && Enabled(s, a) && (a.HostTick? ==> H.Tick(s.host).status != H.Failure)
    ensures Takes(s, [a], Step(s, a))
  {
    StepWellFormed(s, a);
    assert [a][1..] == [];
    assert Run(Step(s, a), []) == Step(s, a) && NoFailure(Step(s, a), []);
  }

  /** The host ticks, its frame reaches the device, and the reply reaches the host. */
  const ROUND: seq<Action> := [HostTick] + ([ToDevice(0)] + [ToHost(0)])

  const DROP: seq<Action> := [HostTick] + [LoseUp(0)]

  lemma Ticked(s: System, m: Message)
    requires WellFormed(s) && Quiet(s) && H.Tick(s.host).sent == [m] && H.Tick(s.host).status != H.Failure
    ensures Takes(s, [HostTick], System(H.Tick(s.host).host, s.device, [m], []))
  {
    TakesOne(s, HostTick);
    assert [] + [m] == [m];
  }

  /** One exchange, both ways. */
  lemma Exchange(s: System, m: Message, r: D.Handled)
    requires WellFormed(s) && Quiet(s) && H.Tick(s.host).sent == [m] && H.Tick(s.host).status != H.Failure
    requires r == D.HandleOta(s.device, m)
    ensures Takes(s, ROUND, System(H.OnResponse(H.Tick(s.host).host, r.reply), r.device, [], []))
  {
    var h := H.Tick(s.host).host;
    var s1, s2 := System(h, s.device, [m], []), System(h, r.device, [], [r.reply]);
    Ticked(s, m);
    assert Without([m], 0) == [] && [] + [r.reply] == [r.reply] && Without([r.reply], 0) == [];
    TakesOne(s1, ToDevice(0));
    assert Step(s1, ToDevice(0)) == s2;
    TakesOne(s2, ToHost(0));
    var t := System(H.OnResponse(h, r.reply), r.device, [], []);
    assert Step(s2, ToHost(0)) == t;
    TakesJoin(s1, [ToDevice(0)], s2, [ToHost(0)], t);
    TakesJoin(s, [HostTick], s1, [ToDevice(0)] + [ToHost(0)], t);
  }

  /** A frame sent in vain. */
  lemma Dropped(s: System, m: Message)
    requires WellFormed(s) && Quiet(s) && H.Tick(s.host).sent == [m] && H.Tick(s.host).status != H.Failure
    ensures Takes(s, DROP, s.(host := H.Tick(s.host).host))
  {
    var s1 := System(H.Tick(s.host).host, s.device, [m], []);
    Ticked(s, m);
    assert Without([m], 0) == [];
    TakesOne(s1, LoseUp(0));
    TakesJoin(s, [HostTick], s1, [LoseUp(0)], s.(host := H.Tick(s.host).host));
  }

  // ---------------------------------------------------------------- what the host makes of replies

  lemma AckHeard(h: H.Host, cmd: Byte, status: Byte, received: Word32)
    requires cmd == START || cmd == END
    ensures H.OnResponse(h, AckFrame(cmd, status, received))
         == h.(reply := h.reply.(lastStatus := status, lastReceived := received, ackReceived := true))
  {
    AckRoundTrip(cmd, status, received);
  }

  lemma DataHeard(h: H.Host, status: Byte, received: Word32)
    ensures H.OnResponse(h, AckFrame(DATA, status, received)) ==
            if status == SUCCESS then h.(retries := h.retries.(chunk := 0))
            else h.(reply := h.reply.(lastReceived := received, nak := true))
  {
    AckRoundTrip(DATA, status, received);
  }

  lemma VerdictHeard(h: H.Host, status: Byte, crc: bv16)
    ensures H.OnResponse(h, VerifyReply(status, crc)) == h.(verdict := H.Verdict(crc, true, status == SUCCESS))
  {
    VerifyRoundTrip(status, crc);
  }

  // ---------------------------------------------------------------- sending chunks

  /** The offset the next chunk is sent from. */
  function Aim(h: H.Host): nat { if h.reply.nak then h.reply.lastReceived else h.offset }

  /** START is acknowledged, END not sent yet, and the retries have not run out. */
  predicate Sending(h: H.Host) {
    && H.Valid(h.plan) && h.plan.connected
    && h.phases.start != H.Send && h.phases.end == H.Send && h.phases.verify == H.Send
    && (h.phases.start == H.Wait ==> h.reply.ackReceived && h.reply.lastStatus == SUCCESS)
    && (h.reply.nak ==> h.retries.chunk < 3)
  }

  lemma ChunkTick(h: H.Host)
    requires Sending(h) && Aim(h) < |h.plan.fw|
    ensures var r, k := H.Tick(h), Aim(h);
            && r.status == H.Running && r.sent == [DataFrame(k, H.ChunkAt(h.plan, k))]
            && Sending(r.host) && r.host.plan == h.plan && !r.host.reply.nak && r.host.offset == k + H.LenAt(h.plan, k)
            && r.host.retries.chunk <= h.retries.chunk + 1
  {
    H.TickIs(h);
  }

  lemma EndTick(h: H.Host)
    requires Sending(h) && Aim(h) >= |h.plan.fw|
    ensures var r := H.Tick(h);
            && r.status == H.Running && r.sent == [EndFrame()] && r.host.plan == h.plan
            && r.host.phases == H.Phases(H.Done, H.Wait, H.Send) && !r.host.reply.nak && r.host.offset >= |h.plan.fw|
  {
    H.TickIs(h);
  }

  /** A quiet system whose next chunk goes out from `k`. */
  predicate Poised(s: System, k: nat) { WellFormed(s) && Quiet(s) && Sending(s.host) && Aim(s.host) == k }

  /** The chunk is in place: it is taken, or the device no longer receives; either way the host goes on. */
  lemma ChunkTaken(s: System, k: nat) returns (actions: seq<Action>, t: System)
    requires Poised(s, k) && k < |s.host.plan.fw| && s.device.received == k && s.device.state != D.Erasing
    ensures Takes(s, actions, t) && AllOrderly(actions) && Poised(t, k + H.LenAt(s.host.plan, k))
    ensures t.host.plan == s.host.plan && t.device == AfterChunk(s.device, s.host.plan, k)
  {
    var m := DataFrame(k, H.ChunkAt(s.host.plan, k));
    ChunkTick(s.host);
    ChunkHandled(s.device, s.host.plan, k);
    Exchange(s, m, D.HandleOta(s.device, m));
    var e := AfterChunk(s.device, s.host.plan, k);
    DataHeard(H.Tick(s.host).host, SUCCESS, e.received);
    actions, t := ROUND, System(H.OnResponse(H.Tick(s.host).host, D.HandleOta(s.device, m).reply), e, [], []);
  }

  /** The chunk is out of place: the host is told where to go on. */
  lemma ChunkRefused(s: System, k: nat) returns (actions: seq<Action>, t: System)
    requires Poised(s, k) && k < |s.host.plan.fw| && s.device.received != k && s.device.state != D.Erasing
    requires s.host.retries.chunk == 0
    ensures Takes(s, actions, t) && AllOrderly(actions) && Poised(t, s.device.received)
    ensures t.host.plan == s.host.plan && t.device == s.device
  {
    var m := DataFrame(k, H.ChunkAt(s.host.plan, k));
    ChunkTick(s.host);
    ChunkHandled(s.device, s.host.plan, k);
    Exchange(s, m, D.HandleOta(s.device, m));
    DataHeard(H.Tick(s.host).host, PARAM_ERR, s.device.received);
    actions, t := ROUND, System(H.OnResponse(H.Tick(s.host).host, D.HandleOta(s.device, m).reply), s.device, [], []);
  }

  lemma ChunkLost(s: System, k: nat) returns (actions: seq<Action>, t: System)
    requires Poised(s, k) && k < |s.host.plan.fw|
    ensures Takes(s, actions, t) && Poised(t, k + H.LenAt(s.host.plan, k))
    ensures t.host.plan == s.host.plan && t.device == s.device
  {
    ChunkTick(s.host);
    Dropped(s, DataFrame(k, H.ChunkAt(s.host.plan, k)));
    actions, t := DROP, s.(host := H.Tick(s.host).host);
  }

  /** Chunk after chunk to `r` received bytes, in order and without losses. */
  lemma {:induction false} Transfer(s: System, b: D.Device, k: nat, r: nat) returns (actions: seq<Action>, t: System)
    requires Poised(s, k) && s.device.state == D.Receiving && s.device.received == k
    requires OnTrack(s.device, b, s.host.plan) && Leads(b, s.host.plan, k, r)
    ensures Takes(s, actions, t) && AllOrderly(actions) && Poised(t, r) && t.host.plan == s.host.plan
    ensures OnTrack(t.device, b, s.host.plan) && t.device.state == D.Receiving && t.device.received == r
    decreases |s.host.plan.fw| - k
  {
    if k == r {
      actions, t := [], s;
    } else {
      var first, u := ChunkTaken(s, k);
      ChunkOnTrack(s.device, b, s.host.plan, k);
      var rest;
      rest, t := Transfer(u, b, k + H.LenAt(s.host.plan, k), r);
      TakesJoin(s, first, u, rest, t);
      actions := first + rest;
    }
  }

  /** The rest of the firmware sent in vain. */
  lemma {:induction false} LoseRest(s: System, k: nat) returns (actions: seq<Action>, t: System)
    requires Poised(s, k)
    ensures Takes(s, actions, t) && t.host.plan == s.host.plan && t.device == s.device
    ensures Poised(t, Aim(t.host)) && Aim(t.host) >= |s.host.plan.fw|
    ensures k >= |s.host.plan.fw| ==> actions == []
    decreases |s.host.plan.fw| - k
  {
    if k >= |s.host.plan.fw| {
      actions, t := [], s;
    } else {
      var first, u := ChunkLost(s, k);
      var rest;
      rest, t := LoseRest(u, k + H.LenAt(s.host.plan, k));
      TakesJoin(s, first, u, rest, t);
      actions := first + rest;
    }
  }

  // ---------------------------------------------------------------- START, END and VERIFY

  lemma StartTick(plan: H.Plan)
    requires Ready(plan)
    ensures var r := H.Tick(H.NewHost(plan));
            && r.status == H.Running && r.sent == [StartFrame(|plan.fw|, plan.start, plan.crc)]
            && r.host == H.NewHost(plan).(phases := H.Phases(H.Wait, H.Send, H.Send))
  {
    H.TickIs(H.NewHost(plan));
  }

  lemma StartRound(plan: H.Plan, d: D.Device) returns (actions: seq<Action>, t: System)
    requires Ready(plan) && DeviceFits(d)
    ensures Takes(Begin(plan, d), actions, t) && AllOrderly(actions) && t.device == Started(d, plan)
    ensures Poised(t, 0) && t.host.plan == plan && t.host.retries.chunk == 0
  {
    var m, b := StartFrame(|plan.fw|, plan.start, plan.crc), Started(d, plan);
    StartTick(plan);
    StartHandled(d, plan);
    Exchange(Begin(plan, d), m, D.Handled(b, AckFrame(START, SUCCESS, b.received)));
    var h := H.Tick(H.NewHost(plan)).host;
    AckHeard(h, START, SUCCESS, b.received);
    actions, t := ROUND, System(H.OnResponse(h, AckFrame(START, SUCCESS, b.received)), b, [], []);
  }

  /** The host has its END acknowledged and is about to ask for the verdict. */
  predicate Ended(h: H.Host) {
    && H.Valid(h.plan) && h.plan.connected && h.phases == H.Phases(H.Done, H.Wait, H.Send)
    && h.reply.ackReceived && h.reply.lastStatus == SUCCESS && !h.reply.nak && h.offset >= |h.plan.fw|
  }

  predicate Running(d: D.Device) { d.state != D.Idle && d.state != D.Erasing }

  lemma EndRound(s: System) returns (actions: seq<Action>, t: System)
    requires Poised(s, Aim(s.host)) && Aim(s.host) >= |s.host.plan.fw|
    requires Running(s.device) && s.device.received == s.device.total
    ensures Takes(s, actions, t) && AllOrderly(actions) && WellFormed(t) && Quiet(t) && Ended(t.host)
    ensures t.host.plan == s.host.plan && t.device == AfterEnd(s.device)
  {
    EndTick(s.host);
    EndHandled(s.device);
    Exchange(s, EndFrame(), D.HandleOta(s.device, EndFrame()));
    var e := AfterEnd(s.device);
    AckHeard(H.Tick(s.host).host, END, SUCCESS, e.received);
    actions, t := ROUND, System(H.OnResponse(H.Tick(s.host).host, D.HandleOta(s.device, EndFrame()).reply), e, [], []);
  }

  /** The verdict is in and not yet looked at. */
  predicate Judged(h: H.Host, ok: bool) {
    && H.Valid(h.plan) && h.plan.connected && h.phases == H.Phases(H.Done, H.Done, H.Wait)
    && !h.reply.nak && h.offset >= |h.plan.fw| && h.verdict.received && h.verdict.ok == ok
  }

  lemma VerifyTick(h: H.Host)
    requires Ended(h)
    ensures var r := H.Tick(h);
            && r.status == H.Running && r.sent == [VerifyFrame()] && r.host.plan == h.plan
            && r.host.phases == H.Phases(H.Done, H.Done, H.Wait) && r.host.reply == h.reply && r.host.offset == h.offset
  {
    H.TickIs(h);
  }

  lemma VerifyRound(s: System) returns (actions: seq<Action>, t: System)
    requires WellFormed(s) && Quiet(s) && Ended(s.host) && Running(s.device)
    ensures Takes(s, actions, t) && AllOrderly(actions) && WellFormed(t) && Quiet(t) && t.host.plan == s.host.plan
    ensures t.device == AfterVerify(s.device) && Judged(t.host, s.device.calcCrc == s.device.expectedCrc)
  {
    VerifyTick(s.host);
    VerifyHandled(s.device);
    Exchange(s, VerifyFrame(), D.HandleOta(s.device, VerifyFrame()));
    var e := AfterVerify(s.device);
    VerdictHeard(H.Tick(s.host).host, if s.device.calcCrc == s.device.expectedCrc then SUCCESS else CRC_ERR, e.calcCrc);
    actions := ROUND;
    t := System(H.OnResponse(H.Tick(s.host).host, D.HandleOta(s.device, VerifyFrame()).reply), e, [], []);
  }

  /** The tick after the verdict reports it; the tick after that reports success, whatever the verdict was. */
  lemma FailedVerifyIsForgotten(h: H.Host, ok: bool)
    requires Judged(h, ok)
    ensures H.Tick(h).status == (if ok then H.Success else H.Failure) && H.Tick(h).sent == []
    ensures H.Tick(H.Tick(h).host).status == H.Success && H.Tick(H.Tick(h).host).sent == []
  {
    H.TickIs(h);
    H.TickIs(H.Tick(h).host);
  }
}
