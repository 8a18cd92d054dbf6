/** What every run of an upgrade keeps, whatever device it starts with. */
module OtaSafety {
  import opened Octets
  import opened Frames
  import opened OtaWire
  import opened OtaLink
  import opened OtaTrack
  import H = OtaHost
  import D = OtaDevice

  // ---------------------------------------------------------------- frames under way

  predicate FromHost(plan: H.Plan, m: Message)
    requires H.Valid(plan)
  {
    || m == StartFrame(|plan.fw|, plan.start, plan.crc)
    || IsChunk(plan, m)
    || m == EndFrame()
    || m == VerifyFrame()
  }

  predicate AllFromHost(plan: H.Plan, up: seq<Message>)
    requires H.Valid(plan)
  {
    forall i :: 0 <= i < |up| ==> FromHost(plan, up[i])
  }

  /** Until START is done, nothing else is sent. */
  predicate StartFirst(h: H.Host, up: seq<Message>) {
    h.phases.start != H.Done ==> forall i :: 0 <= i < |up| ==> up[i].cmd == START
  }

  /** A reply to one of the four commands. */
  predicate FromDevice(m: Message) {
    && m.cls == OTA_CLASS
    && (m.cmd == Replying(VERIFY) ==> |m.data| == VERIFY_SIZE)
    && (m.cmd != Replying(VERIFY) ==>
          |m.data| == ACK_SIZE && (m.cmd == Replying(START) || m.cmd == Replying(DATA) || m.cmd == Replying(END)))
  }

  /** How many frames carry a command. */
  function Count(s: seq<Message>, cmd: Byte): nat {
    if s == [] then 0 else Count(s[1..], cmd) + if s[0].cmd == cmd then 1 else 0
  }

  // ---------------------------------------------------------------- invariant

  /** The actions complete in order. */
  predicate Ordered(p: H.Phases) {
    && (p.start != H.Done ==> p.end == H.Send)
    && (p.end != H.Done ==> p.verify == H.Send)
  }

  function Pending(s: System, cmd: Byte): nat
    requires cmd < ACK_FLAG
  {
    Count(s.up, cmd) + Count(s.down, Replying(cmd))
  }

  /** The host waits for the answer to a command. */
  predicate Awaits(h: H.Host, cmd: Byte) {
    || (cmd == START && h.phases.start == H.Wait && !h.reply.ackReceived)
    || (cmd == END && h.phases.end == H.Wait && !h.reply.ackReceived)
    || (cmd == VERIFY && h.phases.verify == H.Wait && !h.verdict.received)
  }

  function Limit(h: H.Host, cmd: Byte): nat { if Awaits(h, cmd) then 1 else 0 }

  /** At most one START, END and VERIFY is under way, counting its reply, and only while the host waits for it. */
  predicate OneAtATime(s: System) {
    && Pending(s, START) <= Limit(s.host, START)
    && Pending(s, END) <= Limit(s.host, END)
    && Pending(s, VERIFY) <= Limit(s.host, VERIFY)
  }

  /** The device has handled the START of this upgrade; `d0` is the device it began with. */
  predicate Begun(d: D.Device, d0: D.Device, plan: H.Plan)
    requires H.Valid(plan) && DeviceFits(d0)
  {
    OnTrack(d, Started(d0, plan), plan)
  }

  predicate Agrees(d: D.Device) { d.calcCrc == d.expectedCrc }

  /** What the host believes of the device is true. */
  predicate Believed(h: H.Host, d: D.Device, d0: D.Device)
    requires H.Valid(h.plan) && DeviceFits(d0)
  {
    && (h.phases.start == H.Done ==> Begun(d, d0, h.plan))
    && (h.phases.start == H.Wait && h.reply.ackReceived ==> Begun(d, d0, h.plan) && h.reply.lastStatus == SUCCESS)
    && (h.phases.end == H.Wait && h.reply.ackReceived && h.reply.lastStatus == SUCCESS ==> Closed(d))
    && (h.phases.end == H.Done ==> Closed(d))
    && (h.phases.verify != H.Send && h.verdict.received ==> (h.verdict.ok <==> Agrees(d)))
    && (h.phases.verify == H.Done ==> h.verdict.received)
  }

  /** What a reply under way says of the device is true. */
  predicate Truthful(m: Message, d: D.Device, d0: D.Device, plan: H.Plan)
    requires H.Valid(plan) && DeviceFits(d0)
  {
    && FromDevice(m)
    && (m.cmd == Replying(START) ==> Begun(d, d0, plan) && m.data[2] == SUCCESS)
    && (m.cmd == Replying(END) ==> Begun(d, d0, plan) && (m.data[2] == SUCCESS ==> Closed(d)))
    && (m.cmd == Replying(VERIFY) ==> Begun(d, d0, plan) && Closed(d) && (m.data[2] == SUCCESS <==> Agrees(d)))
  }

  predicate AllTruthful(down: seq<Message>, d: D.Device, d0: D.Device, plan: H.Plan)
    requires H.Valid(plan) && DeviceFits(d0)
  {
    forall i :: 0 <= i < |down| ==> Truthful(down[i], d, d0, plan)
  }

  predicate Inv(s: System, d0: D.Device) {
    && WellFormed(s) && s.host.plan.connected && DeviceFits(d0)
    && (s.device == d0 || Begun(s.device, d0, s.host.plan))
    && AllFromHost(s.host.plan, s.up) && StartFirst(s.host, s.up)
    && AllTruthful(s.down, s.device, d0, s.host.plan)
    && Ordered(s.host.phases)
    && OneAtATime(s)
    && Believed(s.host, s.device, d0)
  }

  lemma BeginInv(plan: H.Plan, d: D.Device)
    requires Ready(plan) && DeviceFits(d)
    ensures Inv(Begin(plan, d), d)
  {
  }

  // ---------------------------------------------------------------- counting frames

  lemma {:induction false} CountJoin(a: seq<Message>, b: seq<Message>, cmd: Byte)
    ensures Count(a + b, cmd) == Count(a, cmd) + Count(b, cmd)
  {
    if a == [] {
      assert a + b == b;
    } else {
      assert (a + b)[1..] == a[1..] + b;
      CountJoin(a[1..], b, cmd);
    }
  }

  lemma CountOne(m: Message, cmd: Byte)
    ensures Count([m], cmd) == if m.cmd == cmd then 1 else 0
  {
    assert [m][1..] == [];
  }

  lemma CountMore(s: seq<Message>, m: Message, cmd: Byte)
    ensures Count(s + [m], cmd) == Count(s, cmd) + if m.cmd == cmd then 1 else 0
  {
    CountJoin(s, [m], cmd);
    CountOne(m, cmd);
  }

  lemma CountWithout(s: seq<Message>, i: nat, cmd: Byte)
    requires i < |s|
    ensures Count(s, cmd) == Count(Without(s, i), cmd) + if s[i].cmd == cmd then 1 else 0
  {
    assert s == s[..i] + [s[i]] + s[i + 1..];
    CountJoin(s[..i] + [s[i]], s[i + 1..], cmd);
    CountMore(s[..i], s[i], cmd);
    CountJoin(s[..i], s[i + 1..], cmd);
  }

  // ---------------------------------------------------------------- the host's actions

  /** Sending a frame needs an answer to await that was not awaited before. */
  predicate Sends(h: H.Host, h': H.Host, sent: seq<Message>, cmd: Byte) {
    if |sent| == 1 && sent[0].cmd == cmd then !Awaits(h, cmd) && Awaits(h', cmd)
    else Awaits(h, cmd) ==> Awaits(h', cmd)
  }

  lemma PendingAfter(s: System, r: H.Outcome, cmd: Byte)
    requires |r.sent| <= 1 && cmd < ACK_FLAG && Pending(s, cmd) <= Limit(s.host, cmd)
    requires Sends(s.host, r.host, r.sent, cmd)
    ensures Pending(After(s, r), cmd) <= Limit(r.host, cmd)
  {
    if |r.sent| == 1 {
      assert r.sent == [r.sent[0]];
      CountMore(s.up, r.sent[0], cmd);
    } else {
      assert s.up + r.sent == s.up;
    }
  }

  lemma SentContained(plan: H.Plan, m: Message)
    requires H.Valid(plan) && FromHost(plan, m)
    ensures Contained(m)
  {
    if IsChunk(plan, m) {
      var o: nat :| o < |plan.fw| && m == DataFrame(o, H.ChunkAt(plan, o));
      DataRoundTrip(o, H.ChunkAt(plan, o));
    }
  }

  predicate SendsAll(h: H.Host, r: H.Outcome) {
    Sends(h, r.host, r.sent, START) && Sends(h, r.host, r.sent, END) && Sends(h, r.host, r.sent, VERIFY)
  }

  lemma ActionPending(s: System, r: H.Outcome)
    requires OneAtATime(s) && |r.sent| <= 1 && SendsAll(s.host, r)
    ensures OneAtATime(After(s, r))
  {
    PendingAfter(s, r, START);
    PendingAfter(s, r, END);
    PendingAfter(s, r, VERIFY);
  }

  lemma ActionFrames(h: H.Host, up: seq<Message>, r: H.Outcome)
    requires H.Valid(h.plan) && AllContained(up) && AllFromHost(h.plan, up) && StartFirst(h, up)
    requires r.host.plan == h.plan && |r.sent| <= 1
    requires |r.sent| == 1 ==> FromHost(h.plan, r.sent[0])
    requires |r.sent| == 1 && r.host.phases.start != H.Done ==> r.sent[0].cmd == START
    requires h.phases.start == H.Done ==> r.host.phases.start == H.Done
    ensures AllContained(up + r.sent) && AllFromHost(h.plan, up + r.sent) && StartFirst(r.host, up + r.sent)
  {
    if |r.sent| == 1 {
      SentContained(h.plan, r.sent[0]);
    }
  }

  lemma ActionKeeps(s: System, d0: D.Device, r: H.Outcome)
    requires Inv(s, d0) && r.host.plan == s.host.plan && |r.sent| <= 1
    requires |r.sent| == 1 ==> FromHost(r.host.plan, r.sent[0])
    requires |r.sent| == 1 && r.host.phases.start != H.Done ==> r.sent[0].cmd == START
    requires s.host.phases.start == H.Done ==> r.host.phases.start == H.Done
    requires SendsAll(s.host, r) && Ordered(r.host.phases) && Believed(r.host, s.device, d0)
    ensures Inv(After(s, r), d0)
  {
    ActionPending(s, r);
    ActionFrames(s.host, s.up, r);
  }

  lemma StartKeeps(s: System, d0: D.Device)
    requires Inv(s, d0)
    ensures Inv(After(s, H.SendStart(s.host)), d0)
    ensures H.SendStart(s.host).status == H.Success ==> H.SendStart(s.host).host.phases.start == H.Done
    ensures H.SendStart(s.host).status != H.Failure
  {
    ActionKeeps(s, d0, H.SendStart(s.host));
  }

  lemma NextKeeps(s: System, d0: D.Device)
    requires Inv(s, d0) && s.host.phases.start == H.Done
    ensures Inv(After(s, H.SendNext(s.host)), d0)
    ensures H.SendNext(s.host).host.phases == s.host.phases
  {
    var r := H.SendNext(s.host);
    if s.host.offset < |s.host.plan.fw| {
      assert r.sent[0] == DataFrame(s.host.offset, H.ChunkAt(s.host.plan, s.host.offset));
    }
    ActionKeeps(s, d0, r);
  }

  lemma ChunksKeeps(s: System, d0: D.Device)
    requires Inv(s, d0) && s.host.phases.start == H.Done
    ensures Inv(After(s, H.SendChunks(s.host)), d0)
    ensures H.SendChunks(s.host).host.phases == s.host.phases
  {
    var h := s.host;
    if !h.reply.nak {
      NextKeeps(s, d0);
    } else {
      var counted := H.Counted(h);
      CalmKeeps(s, d0, counted);
      if counted.retries.chunk <= H.MAX_CHUNK_RETRIES {
        CalmKeeps(s, d0, H.Rewound(counted));
        NextKeeps(s.(host := H.Rewound(counted)), d0);
      } else {
        SentNothing(s, H.Outcome(counted, H.Failure, []));
      }
    }
  }

  /** The counters, the offset and the NAK flag are not part of what must be kept. */
  lemma CalmKeeps(s: System, d0: D.Device, h: H.Host)
    requires Inv(s, d0) && h.plan == s.host.plan && h.phases == s.host.phases && h.verdict == s.host.verdict
    requires h.reply.ackReceived == s.host.reply.ackReceived && h.reply.lastStatus == s.host.reply.lastStatus
    ensures Inv(s.(host := h), d0)
  {
    SentNothing(s, H.Outcome(h, H.Running, []));
    ActionKeeps(s, d0, H.Outcome(h, H.Running, []));
  }

  lemma SentNothing(s: System, r: H.Outcome)
    requires r.sent == []
    ensures After(s, r) == s.(host := r.host)
  {
  }

  lemma EndKeeps(s: System, d0: D.Device)
    requires Inv(s, d0) && s.host.phases.start == H.Done
    ensures Inv(After(s, H.SendEnd(s.host)), d0)
    ensures H.SendEnd(s.host).status == H.Success ==> H.SendEnd(s.host).host.phases.end == H.Done
  {
    ActionKeeps(s, d0, H.SendEnd(s.host));
  }

  lemma VerifyKeeps(s: System, d0: D.Device)
    requires Inv(s, d0) && s.host.phases.start == H.Done && s.host.phases.end == H.Done
    ensures Inv(After(s, H.SendVerify(s.host)), d0)
  {
    ActionKeeps(s, d0, H.SendVerify(s.host));
  }

  // ---------------------------------------------------------------- a tick

  /** The state in which the tick's last action runs, once the others have succeeded. */
  lemma EarlierStepsKeep(s: System, d0: D.Device)
    requires Inv(s, d0)
    ensures var a := H.SendStart(s.host);
            var b := H.SendChunks(a.host);
            var c := H.SendEnd(b.host);
            && (a.status == H.Success ==> Inv(s.(host := a.host), d0) && a.host.phases.start == H.Done)
            && (a.status == H.Success && b.status == H.Success ==>
                  Inv(s.(host := b.host), d0) && b.host.phases.start == H.Done)
            && (a.status == H.Success && b.status == H.Success && c.status == H.Success ==>
                  Inv(s.(host := c.host), d0) && c.host.phases.start == H.Done && c.host.phases.end == H.Done)
  {
    var a := H.SendStart(s.host);
    var b := H.SendChunks(a.host);
    var c := H.SendEnd(b.host);
    StartKeeps(s, d0);
    if a.status == H.Success {
      SentNothing(s, a);
      ChunksKeeps(s.(host := a.host), d0);
      if b.status == H.Success {
        SentNothing(s.(host := a.host), b);
        EndKeeps(s.(host := b.host), d0);
        if c.status == H.Success {
          SentNothing(s.(host := b.host), c);
        }
      }
    }
  }

  /** A tick keeps the invariant, and succeeds only when the session is closed. */
  lemma TickKeeps(s: System, d0: D.Device)
    requires Inv(s, d0)
    ensures var r := H.Tick(s.host);
            && Inv(After(s, r), d0)
            && (r.status == H.Success ==> Begun(s.device, d0, s.host.plan) && Closed(s.device))
  {
    H.TickIs(s.host);
    EarlierStepsKeep(s, d0);
    var a := H.SendStart(s.host);
    StartKeeps(s, d0);
    if a.status == H.Success {
      var b := H.SendChunks(a.host);
      ChunksKeeps(s.(host := a.host), d0);
      if b.status == H.Success {
        var c := H.SendEnd(b.host);
        EndKeeps(s.(host := b.host), d0);
        if c.status == H.Success {
          VerifyKeeps(s.(host := c.host), d0);
        }
      }
    }
  }

  /** A tick fails only when the retries ran out, when END was refused although the last size reported is the
      whole firmware, or when the device's CRCs disagree. */
  lemma TickFailure(s: System, d0: D.Device)
    requires Inv(s, d0) && H.Tick(s.host).status == H.Failure
    ensures var h := s.host;
            || (h.reply.nak && h.retries.chunk >= 3)
            || (h.phases.end == H.Wait && h.reply.ackReceived && h.reply.lastStatus != SUCCESS
                && h.reply.lastReceived >= |h.plan.fw|)
            || (Begun(s.device, d0, h.plan) && Closed(s.device) && !Agrees(s.device))
  {
    H.TickIs(s.host);
    EarlierStepsKeep(s, d0);
    StartKeeps(s, d0);
    var a := H.SendStart(s.host);
    if a.status == H.Success {
      StepFailures(a.host);
    }
  }

  lemma StepFailures(h: H.Host)
    requires H.Valid(h.plan) && h.plan.connected
    ensures var b := H.SendChunks(h);
            && (b.status == H.Failure ==> h.reply.nak && h.retries.chunk >= 3)
            && (b.status == H.Success ==> b.host.reply.(nak := h.reply.nak) == h.reply && b.host.phases == h.phases)
  {
  }

  // ---------------------------------------------------------------- the link

  lemma FewerPending(s: System, cmd: Byte, up: seq<Message>, down: seq<Message>)
    requires cmd < ACK_FLAG && Pending(s, cmd) <= Limit(s.host, cmd)
    requires Fewer(s.up, up) && Fewer(s.down, down)
    ensures Pending(s.(up := up, down := down), cmd) <= Limit(s.host, cmd)
  {
    if i: nat :| i < |s.up| && up == Without(s.up, i) {
      CountWithout(s.up, i, cmd);
    }
    if i: nat :| i < |s.down| && down == Without(s.down, i) {
      CountWithout(s.down, i, Replying(cmd));
    }
  }

  predicate Fewer(s: seq<Message>, r: seq<Message>) { r == s || exists i: nat :: i < |s| && r == Without(s, i) }

  lemma FewerAreSome(s: seq<Message>, r: seq<Message>)
    requires Fewer(s, r)
    ensures forall k :: 0 <= k < |r| ==> r[k] in s
  {
  }

  lemma LossPending(s: System, up: seq<Message>, down: seq<Message>)
    requires OneAtATime(s) && Fewer(s.up, up) && Fewer(s.down, down)
    ensures OneAtATime(s.(up := up, down := down))
  {
    FewerPending(s, START, up, down);
    FewerPending(s, END, up, down);
    FewerPending(s, VERIFY, up, down);
  }

  lemma LossFrames(h: H.Host, s: seq<Message>, r: seq<Message>)
    requires H.Valid(h.plan) && AllContained(s) && AllFromHost(h.plan, s) && StartFirst(h, s)
    requires forall k :: 0 <= k < |r| ==> r[k] in s
    ensures AllContained(r) && AllFromHost(h.plan, r) && StartFirst(h, r)
  {
  }

  lemma LossReplies(s: seq<Message>, r: seq<Message>, d: D.Device, d0: D.Device, plan: H.Plan)
    requires H.Valid(plan) && DeviceFits(d0) && AllTruthful(s, d, d0, plan) && forall k :: 0 <= k < |r| ==> r[k] in s
    ensures AllTruthful(r, d, d0, plan)
  {
  }

  lemma LossKeeps(s: System, d0: D.Device, up: seq<Message>, down: seq<Message>)
    requires Inv(s, d0) && Fewer(s.up, up) && Fewer(s.down, down)
    ensures Inv(s.(up := up, down := down), d0)
  {
    FewerAreSome(s.up, up);
    FewerAreSome(s.down, down);
    LossFrames(s.host, s.up, up);
    LossReplies(s.down, down, s.device, d0, s.host.plan);
    LossPending(s, up, down);
  }

  /** A reply that arrives tells the host the truth. */
  lemma ReplyIsBelieved(h: H.Host, d: D.Device, d0: D.Device, m: Message)
    requires H.Valid(h.plan) && DeviceFits(d0)
    requires Believed(h, d, d0) && Ordered(h.phases) && Truthful(m, d, d0, h.plan)
    requires m.cmd == Replying(START) ==> h.phases.start == H.Wait
    requires m.cmd == Replying(END) ==> h.phases.end == H.Wait
    ensures Believed(H.OnResponse(h, m), d, d0) && H.OnResponse(h, m).phases == h.phases
  {
  }

  lemma ReplyIsAwaited(s: System, i: nat, cmd: Byte)
    requires cmd == START || cmd == END || cmd == VERIFY
    requires OneAtATime(s) && i < |s.down| && s.down[i].cmd == Replying(cmd)
    ensures Awaits(s.host, cmd) && Pending(s.(down := Without(s.down, i)), cmd) == 0
  {
    CountWithout(s.down, i, Replying(cmd));
  }

  lemma HeardLimit(h: H.Host, m: Message, cmd: Byte)
    requires Ordered(h.phases) && (cmd == START || cmd == END || cmd == VERIFY)
    requires FromDevice(m) && m.cmd != Replying(cmd)
    requires m.cmd == Replying(START) ==> Awaits(h, START)
    requires m.cmd == Replying(END) ==> Awaits(h, END)
    ensures Limit(h, cmd) <= Limit(H.OnResponse(h, m), cmd)
  {
  }

  lemma HeardPending(s: System, d0: D.Device, i: nat, cmd: Byte)
    requires Inv(s, d0) && i < |s.down| && (cmd == START || cmd == END || cmd == VERIFY)
    ensures var h := H.OnResponse(s.host, s.down[i]);
            Pending(s.(down := Without(s.down, i)), cmd) <= Limit(h, cmd)
  {
    var m := s.down[i];
    assert Truthful(m, s.device, d0, s.host.plan);
    if m.cmd == Replying(cmd) {
      ReplyIsAwaited(s, i, cmd);
    } else {
      if m.cmd == Replying(START) { ReplyIsAwaited(s, i, START); }
      if m.cmd == Replying(END) { ReplyIsAwaited(s, i, END); }
      HeardLimit(s.host, m, cmd);
      CountWithout(s.down, i, Replying(cmd));
    }
  }

  lemma ToHostKeeps(s: System, d0: D.Device, i: nat)
    requires Inv(s, d0) && i < |s.down|
    ensures Inv(Step(s, ToHost(i)), d0)
  {
    var m := s.down[i];
    assert Truthful(m, s.device, d0, s.host.plan);
    HeardPending(s, d0, i, START);
    HeardPending(s, d0, i, END);
    HeardPending(s, d0, i, VERIFY);
    if m.cmd == Replying(START) { ReplyIsAwaited(s, i, START); }
    if m.cmd == Replying(END) { ReplyIsAwaited(s, i, END); }
    ReplyIsBelieved(s.host, s.device, d0, m);
    LossKeeps(s, d0, s.up, Without(s.down, i));
  }

  // ---------------------------------------------------------------- the device's answers

  /** What is known of a device stays true of the one it becomes. */
  predicate Follows(d: D.Device, e: D.Device, d0: D.Device, plan: H.Plan)
    requires H.Valid(plan) && DeviceFits(d0)
  {
    Begun(e, d0, plan) && (Begun(d, d0, plan) ==> Advances(d, e))
  }

  lemma StillTruthful(m: Message, d: D.Device, e: D.Device, d0: D.Device, plan: H.Plan)
    requires H.Valid(plan) && DeviceFits(d0) && Truthful(m, d, d0, plan) && Follows(d, e, d0, plan)
    ensures Truthful(m, e, d0, plan)
  {
  }

  lemma StillBelieved(h: H.Host, d: D.Device, e: D.Device, d0: D.Device)
    requires H.Valid(h.plan) && DeviceFits(d0) && Ordered(h.phases)
    requires Believed(h, d, d0) && Follows(d, e, d0, h.plan)
    ensures Believed(h, e, d0)
  {
  }

  lemma AnswerPending(s: System, i: nat, reply: Message, cmd: Byte)
    requires i < |s.up| && s.up[i].cmd < ACK_FLAG && reply.cmd == Replying(s.up[i].cmd)
    requires cmd < ACK_FLAG
    ensures Pending(s.(up := Without(s.up, i), down := s.down + [reply]), cmd) == Pending(s, cmd)
  {
    CountWithout(s.up, i, cmd);
    CountMore(s.down, reply, Replying(cmd));
  }

  lemma AnswerReplies(down: seq<Message>, reply: Message, d: D.Device, e: D.Device, d0: D.Device, plan: H.Plan)
    requires H.Valid(plan) && DeviceFits(d0) && AllTruthful(down, d, d0, plan) && Follows(d, e, d0, plan)
    requires Truthful(reply, e, d0, plan)
    ensures AllTruthful(down + [reply], e, d0, plan)
  {
    forall k | 0 <= k < |down| ensures Truthful(down[k], e, d0, plan) {
      StillTruthful(down[k], d, e, d0, plan);
    }
  }

  lemma AnswerCounts(s: System, i: nat, e: D.Device, reply: Message)
    requires OneAtATime(s) && i < |s.up| && s.up[i].cmd < ACK_FLAG && reply.cmd == Replying(s.up[i].cmd)
    ensures OneAtATime(s.(device := e, up := Without(s.up, i), down := s.down + [reply]))
  {
    AnswerPending(s, i, reply, START);
    AnswerPending(s, i, reply, END);
    AnswerPending(s, i, reply, VERIFY);
  }

  lemma AnswerKeeps(s: System, d0: D.Device, i: nat, r: D.Handled)
    requires Inv(s, d0) && i < |s.up| && s.up[i].cmd < ACK_FLAG && r == D.HandleOta(s.device, s.up[i])
    requires Follows(s.device, r.device, d0, s.host.plan) && r.reply.cmd == Replying(s.up[i].cmd)
    requires Truthful(r.reply, r.device, d0, s.host.plan)
    ensures Inv(Step(s, ToDevice(i)), d0)
  {
    AnswerCounts(s, i, r.device, r.reply);
    AnswerReplies(s.down, r.reply, s.device, r.device, d0, s.host.plan);
    FewerAreSome(s.up, Without(s.up, i));
    LossFrames(s.host, s.up, Without(s.up, i));
    StillBelieved(s.host, s.device, r.device, d0);
  }

  lemma CommandIsAwaited(s: System, i: nat, cmd: Byte)
    requires OneAtATime(s) && i < |s.up| && s.up[i].cmd == cmd
    requires cmd == START || cmd == END || cmd == VERIFY
    ensures Awaits(s.host, cmd)
  {
    CountWithout(s.up, i, cmd);
  }

  /** Anything but START finds the session begun. */
  lemma BegunByNow(s: System, d0: D.Device, i: nat)
    requires Inv(s, d0) && i < |s.up| && s.up[i].cmd != START
    ensures Begun(s.device, d0, s.host.plan)
  {
  }

  lemma StartAnswered(s: System, d0: D.Device, i: nat)
    requires Inv(s, d0) && i < |s.up|
    requires s.up[i] == StartFrame(|s.host.plan.fw|, s.host.plan.start, s.host.plan.crc)
    ensures Inv(Step(s, ToDevice(i)), d0)
  {
    var plan := s.host.plan;
    StartHandled(s.device, plan);
    StartedOnTrack(d0, plan);
    AnswerKeeps(s, d0, i, D.HandleOta(s.device, s.up[i]));
  }

  lemma ChunkAnswered(s: System, d0: D.Device, i: nat, o: nat)
    requires Inv(s, d0) && i < |s.up| && o < |s.host.plan.fw|
    requires s.up[i] == DataFrame(o, H.ChunkAt(s.host.plan, o))
    ensures Inv(Step(s, ToDevice(i)), d0)
  {
    var plan := s.host.plan;
    BegunByNow(s, d0, i);
    ChunkHandled(s.device, plan, o);
    ChunkOnTrack(s.device, Started(d0, plan), plan, o);
    AnswerKeeps(s, d0, i, D.HandleOta(s.device, s.up[i]));
  }

  lemma EndAnswered(s: System, d0: D.Device, i: nat)
    requires Inv(s, d0) && i < |s.up| && s.up[i] == EndFrame()
    ensures Inv(Step(s, ToDevice(i)), d0)
  {
    BegunByNow(s, d0, i);
    EndHandled(s.device);
    EndOnTrack(s.device, Started(d0, s.host.plan), s.host.plan);
    AnswerKeeps(s, d0, i, D.HandleOta(s.device, s.up[i]));
  }

  lemma VerifyAnswered(s: System, d0: D.Device, i: nat)
    requires Inv(s, d0) && i < |s.up| && s.up[i] == VerifyFrame()
    ensures Inv(Step(s, ToDevice(i)), d0)
  {
    BegunByNow(s, d0, i);
    CommandIsAwaited(s, i, VERIFY);
    VerifyHandled(s.device);
    VerifyOnTrack(s.device, Started(d0, s.host.plan), s.host.plan);
    AnswerKeeps(s, d0, i, D.HandleOta(s.device, s.up[i]));
  }

  lemma ToDeviceKeeps(s: System, d0: D.Device, i: nat)
    requires Inv(s, d0) && i < |s.up|
    ensures Inv(Step(s, ToDevice(i)), d0)
  {
    var m, plan := s.up[i], s.host.plan;
    assert FromHost(plan, m);
    if m == EndFrame() {
      EndAnswered(s, d0, i);
    } else if m == VerifyFrame() {
      VerifyAnswered(s, d0, i);
    } else if IsChunk(plan, m) {
      var o: nat :| o < |plan.fw| && m == DataFrame(o, H.ChunkAt(plan, o));
      ChunkAnswered(s, d0, i, o);
    } else {
      StartAnswered(s, d0, i);
    }
  }

  lemma StepKeeps(s: System, d0: D.Device, a: Action)
    requires Inv(s, d0) && Enabled(s, a)
    ensures Inv(Step(s, a), d0)
  {
    match a
    case HostTick => TickKeeps(s, d0);
    case ToDevice(i) => ToDeviceKeeps(s, d0, i);
    case ToHost(i) => ToHostKeeps(s, d0, i);
    case LoseUp(i) => LossKeeps(s, d0, Without(s.up, i), s.down);
    case LoseDown(i) => LossKeeps(s, d0, s.up, Without(s.down, i));
  }

  lemma {:induction false} RunKeeps(s: System, d0: D.Device, actions: seq<Action>)
    requires Inv(s, d0)
    ensures Inv(Run(s, actions), d0)
    decreases |actions|
  {
    if actions != [] {
      if Enabled(s, actions[0]) {
        StepKeeps(s, d0, actions[0]);
        RunKeeps(Step(s, actions[0]), d0, actions[1..]);
      } else {
        RunKeeps(s, d0, actions[1..]);
      }
    }
  }
}
