/** When a reported success means that the firmware is in flash: the exact condition on the device an
    upgrade starts with, over every run, and what follows for an idle one. */
module OtaUpgrade {
  import opened Octets
  import opened OtaWire
  import opened OtaLink
  import opened OtaTrack
  import opened OtaSafety
  import opened OtaLanding
  import H = OtaHost
  import D = OtaDevice

  // ---------------------------------------------------------------- what the caller can see before START

  /** Chunks of this firmware, or none at all, bring the session to its total. */
  predicate Lands(b: D.Device, plan: H.Plan)
    requires H.Valid(plan)
  {
    if b.state == D.Receiving then Leads(b, plan, b.received, b.total) else b.received == b.total
  }

  /** The flash of the session when it has its total. */
  function Landed(b: D.Device, plan: H.Plan): seq<Byte> { FlashAt(b, plan, b.total) }

  /** The device can be upgraded in any of these states: idle; with a session that this firmware does not bring
      to its total; or with one that then has the firmware in flash. */
  predicate Safe(d: D.Device, plan: H.Plan)
    requires H.Valid(plan)
  {
    match d.state
    case Idle => true
    case Erasing =>
      if d.eraseOk then Leads(d, plan, d.received, d.total) ==> Written(FlashAt(d, plan, d.total), plan)
      else d.received == d.total ==> Written(d.flash, plan)
    case Receiving => Leads(d, plan, d.received, d.total) ==> Written(FlashAt(d, plan, d.total), plan)
    case _ => d.received == d.total ==> Written(d.flash, plan)
  }

  /** The device's own check can come out well: the check of the landed flash against the CRC the session expects,
      or, where none is made, the CRCs it has. */
  predicate CanAgree(b: D.Device, plan: H.Plan)
    requires H.Valid(plan)
  {
    if b.state == D.Receiving then
      || D.CrcOfFlash(Landed(b, plan), b.start, b.total) == b.expectedCrc
      || (Spills(b, plan, b.total) && b.calcCrc == b.expectedCrc)
    else b.calcCrc == b.expectedCrc
  }

  /** The device can be upgraded by a driver that stops at the first failure: idle; with a session that this firmware
      does not bring to its total, or whose check comes out badly there; or with one that then has the firmware in
      flash. */
  predicate FirstSafe(d: D.Device, plan: H.Plan)
    requires H.Valid(plan)
  {
    match d.state
    case Idle => true
    case Erasing => if d.eraseOk then FirstSafeReceiving(d, plan) else FirstSafeClosed(d, plan)
    case Receiving => FirstSafeReceiving(d, plan)
    case _ => FirstSafeClosed(d, plan)
  }

  predicate FirstSafeReceiving(d: D.Device, plan: H.Plan)
    requires H.Valid(plan)
  {
    var flash := FlashAt(d, plan, d.total);
    && Leads(d, plan, d.received, d.total)
    && (|| D.CrcOfFlash(flash, d.start, d.total) == d.expectedCrc
        || (Spills(d, plan, d.total) && d.calcCrc == d.expectedCrc))
    ==> Written(flash, plan)
  }

  predicate FirstSafeClosed(d: D.Device, plan: H.Plan) {
    d.received == d.total && d.calcCrc == d.expectedCrc ==> Written(d.flash, plan)
  }

  // ---------------------------------------------------------------- an idle device

  lemma IdleStarted(d: D.Device, plan: H.Plan)
    requires H.Valid(plan) && DeviceFits(d) && d.state == D.Idle
    ensures var b := Started(d, plan);
            && b.total == |plan.fw| && b.start == plan.start && b.expectedCrc == plan.crc && b.received == 0
            && (b.state == D.Receiving || b.state == D.Error)
  {
  }

  lemma StoredThere<T>(flash: seq<T>, at: nat, fw: seq<T>)
    requires at + |fw| <= |flash|
    ensures (flash[..at] + fw + flash[at + |fw|..])[at..at + |fw|] == fw
  {
  }

  lemma FreshLandingIsWritten(b: D.Device, plan: H.Plan)
    requires H.Valid(plan) && b.received == 0 && b.start == plan.start && b.start + |plan.fw| <= |b.flash|
    ensures Written(FlashAt(b, plan, |plan.fw|), plan)
  {
    assert plan.fw[0..|plan.fw|] == plan.fw;
    StoredThere(b.flash, b.start, plan.fw);
  }

  lemma IdleLandingIsWritten(d: D.Device, plan: H.Plan)
    requires H.Valid(plan) && DeviceFits(d) && d.state == D.Idle && Lands(Started(d, plan), plan)
    ensures Written(Landed(Started(d, plan), plan), plan)
  {
    var b := Started(d, plan);
    IdleStarted(d, plan);
    LeadsBound(b, plan, 0, |plan.fw|);
    FreshLandingIsWritten(b, plan);
  }

  /** The condition speaks about the session after START. */
  lemma SafeIsLanding(d: D.Device, plan: H.Plan)
    requires H.Valid(plan) && DeviceFits(d)
    ensures var b := Started(d, plan);
            Safe(d, plan) <==> (Lands(b, plan) ==> Written(Landed(b, plan), plan))
  {
    var b := Started(d, plan);
    if d.state == D.Idle {
      if Lands(b, plan) {
        IdleLandingIsWritten(d, plan);
      }
    } else if d.state == D.Erasing {
      SameSession(d, b, plan);
    }
  }

  /** So does the condition for a driver that stops at the first failure. */
  lemma FirstSafeIsLanding(d: D.Device, plan: H.Plan)
    requires H.Valid(plan) && DeviceFits(d)
    ensures var b := Started(d, plan);
            FirstSafe(d, plan) <==> (Lands(b, plan) && CanAgree(b, plan) ==> Written(Landed(b, plan), plan))
  {
    var b := Started(d, plan);
    if d.state == D.Idle {
      if Lands(b, plan) {
        IdleLandingIsWritten(d, plan);
      }
    } else if d.state == D.Erasing {
      SameSession(d, b, plan);
    }
  }

  lemma SameSession(d: D.Device, b: D.Device, plan: H.Plan)
    requires H.Valid(plan) && b.start == d.start && b.received == d.received && b.total == d.total && b.flash == d.flash
    ensures Leads(b, plan, b.received, b.total) <==> Leads(d, plan, d.received, d.total)
    ensures FlashAt(b, plan, b.total) == FlashAt(d, plan, d.total)
  {
    LeadsSame(b, d, plan, d.received, d.total);
  }

  lemma {:induction false} LeadsSame(b: D.Device, c: D.Device, plan: H.Plan, k: nat, r: nat)
    requires H.Valid(plan) && b.start == c.start && |b.flash| == |c.flash|
    ensures Leads(b, plan, k, r) <==> Leads(c, plan, k, r)
    decreases |plan.fw| - k
  {
    if k != r && k < |plan.fw| {
      LeadsSame(b, c, plan, k + H.LenAt(plan, k), r);
    }
  }

  // ---------------------------------------------------------------- what a reported success means

  /** In every run a reported success means that the session has landed. */
  lemma SuccessMeansLanded(plan: H.Plan, d: D.Device, actions: seq<Action>)
    requires Ready(plan) && DeviceFits(d)
    ensures var t, b := Run(Begin(plan, d), actions), Started(d, plan);
            Reports(t) ==> Lands(b, plan) && t.device.flash == Landed(b, plan)
  {
    BeginInv(plan, d);
    RunKeeps(Begin(plan, d), d, actions);
    TickKeeps(Run(Begin(plan, d), actions), d);
  }

  /** Once a tick has looked at a verdict and none has failed, the verdict was good. */
  predicate GoodSoFar(h: H.Host) { h.phases.verify == H.Done ==> h.verdict.ok }

  lemma GoodStep(s: System, d: D.Device, a: Action)
    requires Inv(s, d) && Enabled(s, a) && GoodSoFar(s.host)
    requires a.HostTick? ==> H.Tick(s.host).status != H.Failure
    ensures GoodSoFar(Step(s, a).host)
  {
    match a
    case HostTick => GoodTick(s.host);
    case ToHost(i) =>
      if s.down[i].cmd == Replying(VERIFY) { ReplyIsAwaited(s, i, VERIFY); }
    case _ =>
  }

  /** The first three actions leave the verdict alone. */
  lemma VerdictStays(h: H.Host)
    requires H.Valid(h.plan)
    ensures H.SendStart(h).host.verdict == H.SendChunks(h).host.verdict == H.SendEnd(h).host.verdict == h.verdict
    ensures H.SendStart(h).host.phases.verify == H.SendChunks(h).host.phases.verify
         == H.SendEnd(h).host.phases.verify == h.phases.verify
  {
  }

  lemma GoodTick(h: H.Host)
    requires H.Valid(h.plan) && GoodSoFar(h) && H.Tick(h).status != H.Failure
    ensures GoodSoFar(H.Tick(h).host)
    ensures H.Tick(h).status == H.Success ==> H.Tick(h).host.verdict.ok && H.Tick(h).host.phases.verify == H.Done
  {
    H.TickIs(h);
    var a := H.SendStart(h).host;
    var b := H.SendChunks(a).host;
    VerdictStays(h);
    VerdictStays(a);
    VerdictStays(b);
  }

  lemma {:induction false} GoodRun(s: System, d: D.Device, actions: seq<Action>)
    requires Inv(s, d) && GoodSoFar(s.host) && NoFailure(s, actions)
    ensures GoodSoFar(Run(s, actions).host)
    decreases |actions|
  {
    if actions != [] {
      if Enabled(s, actions[0]) {
        GoodStep(s, d, actions[0]);
        StepKeeps(s, d, actions[0]);
        GoodRun(Step(s, actions[0]), d, actions[1..]);
      } else {
        GoodRun(s, d, actions[1..]);
      }
    }
  }

  lemma ClosedCanAgree(e: D.Device, b: D.Device, plan: H.Plan)
    requires H.Valid(plan) && OnTrack(e, b, plan) && Closed(e) && Agrees(e)
    ensures CanAgree(b, plan)
  {
  }

  /** If no tick failed before, the device's own check came out well too. */
  lemma FirstSuccessMeansAgreed(plan: H.Plan, d: D.Device, actions: seq<Action>)
    requires Ready(plan) && DeviceFits(d) && NoFailure(Begin(plan, d), actions)
    ensures Reports(Run(Begin(plan, d), actions)) ==> CanAgree(Started(d, plan), plan)
  {
    var s := Begin(plan, d);
    var t := Run(s, actions);
    BeginInv(plan, d);
    RunKeeps(s, d, actions);
    GoodRun(s, d, actions);
    if Reports(t) {
      TickKeeps(t, d);
      GoodTick(t.host);
      ClosedCanAgree(t.device, Started(d, plan), plan);
    }
  }

  // ---------------------------------------------------------------- a landing can be reported

  /** From a started session to its total. With `spill`, one more chunk follows that does not fit. */
  lemma ReachTotal(s: System, b: D.Device, spill: bool) returns (actions: seq<Action>, t: System)
    requires Poised(s, 0) && s.host.retries.chunk == 0 && s.device == b && Running(b)
    requires Lands(b, s.host.plan) && OnTrack(b, b, s.host.plan)
    requires spill ==> b.state == D.Receiving && Spills(b, s.host.plan, b.total)
    ensures Takes(s, actions, t) && Poised(t, Aim(t.host)) && t.host.plan == s.host.plan
    ensures OnTrack(t.device, b, s.host.plan) && t.device.received == b.total
    ensures if spill then t.device.state == D.Error && t.device.calcCrc == b.calcCrc else t.device.state == b.state
    ensures b.state != D.Receiving ==> t.device == b
    ensures b.total >= |s.host.plan.fw| ==> AllOrderly(actions) && Aim(t.host) >= |s.host.plan.fw|
  {
    var plan, k := s.host.plan, b.received;
    if b.state == D.Receiving {
      LeadsBound(b, plan, k, b.total);
    }
    if k < b.total || spill {
      actions, t := ReachByChunks(s, b, spill);
    } else if k >= |plan.fw| {
      actions, t := ChunkRefused(s, 0);
    } else {
      actions, t := [], s;
    }
  }

  lemma ReachByChunks(s: System, b: D.Device, spill: bool) returns (actions: seq<Action>, t: System)
    requires Poised(s, 0) && s.host.retries.chunk == 0 && s.device == b && b.state == D.Receiving
    requires Leads(b, s.host.plan, b.received, b.total) && OnTrack(b, b, s.host.plan)
    requires spill ==> Spills(b, s.host.plan, b.total)
    ensures Takes(s, actions, t) && Poised(t, Aim(t.host)) && t.host.plan == s.host.plan && Aim(t.host) >= b.total
    ensures OnTrack(t.device, b, s.host.plan) && t.device.received == b.total
    ensures if spill then t.device.state == D.Error && t.device.calcCrc == b.calcCrc else t.device.state == b.state
    ensures AllOrderly(actions)
  {
    var first, u := [], s;
    if b.received != 0 {
      first, u := ChunkRefused(s, 0);
    }
    var rest;
    rest, t := Transfer(u, b, b.received, b.total);
    TakesJoin(s, first, u, rest, t);
    actions := first + rest;
    if spill {
      var last, v := SpillRun(t, b);
      TakesJoin(s, actions, t, last, v);
      actions, t := actions + last, v;
    }
  }

  lemma SpillRun(s: System, b: D.Device) returns (actions: seq<Action>, t: System)
    requires Poised(s, b.total) && OnTrack(s.device, b, s.host.plan) && b.state == s.device.state == D.Receiving
    requires s.device.received == b.total && Spills(b, s.host.plan, b.total)
    ensures Takes(s, actions, t) && Poised(t, Aim(t.host)) && t.host.plan == s.host.plan && Aim(t.host) >= b.total
    ensures OnTrack(t.device, b, s.host.plan)
    ensures t.device == s.device.(state := D.Error) && t.device.calcCrc == b.calcCrc
    ensures AllOrderly(actions)
  {
    actions, t := ChunkTaken(s, b.total);
    ChunkOnTrack(s.device, b, s.host.plan, b.total);
  }

  lemma EndRuns(d: D.Device)
    requires Running(d)
    ensures Running(AfterEnd(d)) && (Agrees(AfterVerify(AfterEnd(d))) <==> Agrees(AfterEnd(d)))
  {
  }

  /** END and VERIFY. */
  lemma JudgeRun(s: System) returns (actions: seq<Action>, t: System)
    requires Poised(s, Aim(s.host)) && Aim(s.host) >= |s.host.plan.fw|
    requires Running(s.device) && s.device.received == s.device.total
    ensures Takes(s, actions, t) && AllOrderly(actions) && WellFormed(t) && t.host.plan == s.host.plan
    ensures t.device == AfterVerify(AfterEnd(s.device)) && Judged(t.host, Agrees(t.device))
  {
    EndRuns(s.device);
    var end, u := EndRound(s);
    var verify;
    verify, t := VerifyRound(u);
    TakesJoin(s, end, u, verify, t);
    actions := end + verify;
  }

  lemma CloseRun(s: System) returns (actions: seq<Action>, t: System)
    requires Poised(s, Aim(s.host)) && Running(s.device) && s.device.received == s.device.total
    ensures Takes(s, actions, t) && WellFormed(t) && t.host.plan == s.host.plan
    ensures t.device == AfterVerify(AfterEnd(s.device)) && Judged(t.host, Agrees(t.device))
    ensures Aim(s.host) >= |s.host.plan.fw| ==> AllOrderly(actions)
  {
    var lost, u := LoseRest(s, Aim(s.host));
    var judge;
    judge, t := JudgeRun(u);
    TakesJoin(s, lost, u, judge, t);
    actions := lost + judge;
  }

  /** A device that has its total, after END and VERIFY. */
  lemma ClosedDevice(d: D.Device)
    requires d.received == d.total && Running(d)
    ensures var e := AfterVerify(AfterEnd(d));
            && e == d.(state := e.state, calcCrc := e.calcCrc) && Closed(e)
            && e.calcCrc == (if d.state == D.Receiving then D.CrcOfFlash(d.flash, d.start, d.total) else d.calcCrc)
            && (d.state == D.Complete || d.state == D.Error ==> e == d)
            && (d.state == D.Receiving ==> e.state == if Agrees(e) then D.Complete else D.Error)
  {
  }

  /** How a session `b` ends up. */
  predicate LandedAs(e: D.Device, b: D.Device, plan: H.Plan, spill: bool) {
    && e.flash == Landed(b, plan) && e.received == e.total == b.total && e.start == b.start && Closed(e)
    && e.expectedCrc == b.expectedCrc
    && e.calcCrc == (if b.state == D.Receiving && !spill then D.CrcOfFlash(Landed(b, plan), b.start, b.total)
                     else b.calcCrc)
    && (b.state == D.Complete || b.state == D.Error ==> e == b)
    && (b.state == D.Receiving && !spill ==> e.state == if Agrees(e) then D.Complete else D.Error)
  }

  lemma SessionLands(d: D.Device, b: D.Device, plan: H.Plan, spill: bool)
    requires H.Valid(plan) && OnTrack(d, b, plan) && d.received == b.total && Running(d)
    requires if spill then b.state == D.Receiving && d.state == D.Error && d.calcCrc == b.calcCrc
             else d.state == b.state
    requires b.state != D.Receiving ==> d == b
    ensures LandedAs(AfterVerify(AfterEnd(d)), b, plan, spill)
  {
    ClosedDevice(d);
  }

  /** A run without a failure that lands the session and brings the verdict to the host; orderly if the session's
      total is not less than the firmware. */
  lemma LandingRun(plan: H.Plan, d: D.Device, spill: bool) returns (actions: seq<Action>, t: System)
    requires Ready(plan) && DeviceFits(d) && Lands(Started(d, plan), plan)
    requires spill ==> Started(d, plan).state == D.Receiving && Spills(Started(d, plan), plan, Started(d, plan).total)
    ensures Takes(Begin(plan, d), actions, t) && WellFormed(t) && t.host.plan == plan
    ensures Judged(t.host, Agrees(t.device)) && LandedAs(t.device, Started(d, plan), plan, spill)
    ensures Started(d, plan).total >= |plan.fw| ==> AllOrderly(actions)
  {
    var s, b := Begin(plan, d), Started(d, plan);
    var start, s1 := StartRound(plan, d);
    StartedOnTrack(d, plan);
    var reach, s2 := ReachTotal(s1, b, spill);
    var close;
    close, t := CloseRun(s2);
    SessionLands(s2.device, b, plan, spill);
    TakesJoin(s1, reach, s2, close, t);
    TakesJoin(s, start, s1, reach + close, t);
    actions := start + (reach + close);
  }

  /** One more tick, and success is reported whatever the verdict was. */
  lemma LandingIsReported(plan: H.Plan, d: D.Device) returns (actions: seq<Action>)
    requires Ready(plan) && DeviceFits(d) && Lands(Started(d, plan), plan)
    ensures var t := Run(Begin(plan, d), actions);
            Reports(t) && t.device.flash == Landed(Started(d, plan), plan)
  {
    var run, t := LandingRun(plan, d, false);
    FailedVerifyIsForgotten(t.host, Agrees(t.device));
    RunJoin(Begin(plan, d), run, [HostTick]);
    assert [HostTick][1..] == [];
    StepWellFormed(t, HostTick);
    assert Run(t, [HostTick]) == Run(Step(t, HostTick), []) == Step(t, HostTick);
    actions := run + [HostTick];
  }

  // ---------------------------------------------------------------- the exact conditions

  /** Over every run: whenever the host reports success, the firmware is in flash. */
  ghost predicate AlwaysWritten(plan: H.Plan, d: D.Device)
    requires H.Valid(plan) && DeviceFits(d)
  {
    forall actions :: Reports(Run(Begin(plan, d), actions)) ==> Written(Run(Begin(plan, d), actions).device.flash, plan)
  }

  /** Success means written, over every run, exactly for the devices that are safe to upgrade. */
  lemma WrittenIffSafe(plan: H.Plan, d: D.Device)
    requires Ready(plan) && DeviceFits(d)
    ensures AlwaysWritten(plan, d) <==> Safe(d, plan)
  {
    var b := Started(d, plan);
    SafeIsLanding(d, plan);
    if Safe(d, plan) {
      forall actions | Reports(Run(Begin(plan, d), actions))
        ensures Written(Run(Begin(plan, d), actions).device.flash, plan)
      {
        SuccessMeansLanded(plan, d, actions);
      }
    } else {
      var actions := LandingIsReported(plan, d);
    }
  }

  /** The same for a driver that stops at the first failure. */
  ghost predicate FirstReportWritten(plan: H.Plan, d: D.Device)
    requires H.Valid(plan) && DeviceFits(d)
  {
    forall actions :: NoFailure(Begin(plan, d), actions) && Reports(Run(Begin(plan, d), actions)) ==>
                        Written(Run(Begin(plan, d), actions).device.flash, plan)
  }

  /** There the device's own check counts too. */
  lemma FirstReportWrittenIff(plan: H.Plan, d: D.Device)
    requires Ready(plan) && DeviceFits(d)
    ensures FirstReportWritten(plan, d) <==> FirstSafe(d, plan)
  {
    var b := Started(d, plan);
    FirstSafeIsLanding(d, plan);
    forall actions | NoFailure(Begin(plan, d), actions) && Reports(Run(Begin(plan, d), actions))
      ensures Lands(b, plan) && CanAgree(b, plan) && Run(Begin(plan, d), actions).device.flash == Landed(b, plan)
    {
      SuccessMeansLanded(plan, d, actions);
      FirstSuccessMeansAgreed(plan, d, actions);
    }
    if Lands(b, plan) && CanAgree(b, plan) {
      var spill := b.state == D.Receiving && D.CrcOfFlash(Landed(b, plan), b.start, b.total) != b.expectedCrc;
      var actions, t := LandingRun(plan, d, spill);
      FailedVerifyIsForgotten(t.host, Agrees(t.device));
    }
  }

  // ---------------------------------------------------------------- upgrades that find the device idle

  /** Whatever the link loses, delays or reorders: from an idle device, success means written. */
  lemma SuccessMeansWritten(plan: H.Plan, d: D.Device, actions: seq<Action>)
    requires Ready(plan) && DeviceFits(d) && d.state == D.Idle
    ensures Reports(Run(Begin(plan, d), actions)) ==> Written(Run(Begin(plan, d), actions).device.flash, plan)
  {
    SuccessMeansLanded(plan, d, actions);
    if Reports(Run(Begin(plan, d), actions)) {
      IdleLandingIsWritten(d, plan);
    }
  }

  /** What the device has counted is in flash. */
  predicate Prefix(d: D.Device, plan: H.Plan) {
    && d.start == plan.start && d.total == |plan.fw| && d.received <= |plan.fw|
    && (d.received > 0 ==> d.start + d.received <= |d.flash|
                           && d.flash[d.start..d.start + d.received] == plan.fw[..d.received])
  }

  lemma TrackIsPrefix(e: D.Device, b: D.Device, plan: H.Plan)
    requires H.Valid(plan) && OnTrack(e, b, plan) && b.received == 0 && b.start == plan.start && b.total == |plan.fw|
    ensures Prefix(e, plan)
  {
    if e.received > 0 {
      LeadsBound(b, plan, 0, e.received);
      assert plan.fw[0..e.received] == plan.fw[..e.received];
      StoredThere(b.flash, b.start, plan.fw[..e.received]);
    }
  }

  /** In every state of an upgrade that found the device idle, flash and firmware agree on everything received. */
  lemma ReceivedIsWritten(plan: H.Plan, d: D.Device, actions: seq<Action>)
    requires Ready(plan) && DeviceFits(d) && d.state == D.Idle
    ensures var t := Run(Begin(plan, d), actions); t.device == d || Prefix(t.device, plan)
  {
    BeginInv(plan, d);
    RunKeeps(Begin(plan, d), d, actions);
    IdleStarted(d, plan);
    var t := Run(Begin(plan, d), actions);
    if t.device != d {
      TrackIsPrefix(t.device, Started(d, plan), plan);
    }
  }

  lemma IdleAgrees(e: D.Device, d: D.Device, plan: H.Plan)
    requires Ready(plan) && DeviceFits(d) && d.state == D.Idle && Begun(e, d, plan) && Closed(e)
    ensures Agrees(e)
  {
    IdleStarted(d, plan);
    TrackIsPrefix(e, Started(d, plan), plan);
    assert plan.fw[..|plan.fw|] == plan.fw;
  }

  /** In such an upgrade a tick fails only when the retries ran out, or when END was refused although the last
      size reported is the whole firmware: the verification never fails. */
  lemma IdleTickFailure(plan: H.Plan, d: D.Device, actions: seq<Action>)
    requires Ready(plan) && DeviceFits(d) && d.state == D.Idle
    ensures var h := Run(Begin(plan, d), actions).host;
            H.Tick(h).status == H.Failure ==>
              || (h.reply.nak && h.retries.chunk >= 3)
              || (h.phases.end == H.Wait && h.reply.ackReceived && h.reply.lastStatus != SUCCESS
                  && h.reply.lastReceived >= |plan.fw|)
  {
    BeginInv(plan, d);
    RunKeeps(Begin(plan, d), d, actions);
    var t := Run(Begin(plan, d), actions);
    if H.Tick(t.host).status == H.Failure {
      TickFailure(t, d);
      if Begun(t.device, d, plan) && Closed(t.device) {
        IdleAgrees(t.device, d, plan);
      }
    }
  }

  // ---------------------------------------------------------------- progress is kept

  lemma DeliveryAdvances(s: System, d: D.Device, i: nat)
    requires Inv(s, d) && i < |s.up| && Begun(s.device, d, s.host.plan)
    ensures var e := D.HandleOta(s.device, s.up[i]).device; Advances(s.device, e) && Begun(e, d, s.host.plan)
  {
    var m, plan, b := s.up[i], s.host.plan, Started(d, s.host.plan);
    assert FromHost(plan, m);
    if m == EndFrame() {
      EndHandled(s.device);
      EndOnTrack(s.device, b, plan);
    } else if m == VerifyFrame() {
      VerifyHandled(s.device);
      VerifyOnTrack(s.device, b, plan);
    } else if IsChunk(plan, m) {
      var o: nat :| o < |plan.fw| && m == DataFrame(o, H.ChunkAt(plan, o));
      ChunkHandled(s.device, plan, o);
      ChunkOnTrack(s.device, b, plan, o);
    } else {
      StartHandled(s.device, plan);
    }
  }

  /** Once START is handled, what the device has received never shrinks, and a closed session stays as it is. */
  lemma {:induction false} ReceivedNeverShrinks(s: System, d: D.Device, actions: seq<Action>)
    requires Inv(s, d) && Begun(s.device, d, s.host.plan)
    ensures Advances(s.device, Run(s, actions).device)
    decreases |actions|
  {
    if actions != [] {
      if Enabled(s, actions[0]) {
        if actions[0].ToDevice? {
          DeliveryAdvances(s, d, actions[0].i);
        }
        StepKeeps(s, d, actions[0]);
        ReceivedNeverShrinks(Step(s, actions[0]), d, actions[1..]);
      } else {
        ReceivedNeverShrinks(s, d, actions[1..]);
      }
    }
  }
}
