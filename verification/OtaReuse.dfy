/** Upgrades of a device that is not idle, as runs: a second upgrade of a device that has completed one, and a host
    restarted with another firmware in the middle of a transfer. */
module OtaReuse {
  import opened Octets
  import opened Crc
  import opened CrcDetection
  import opened OtaLink
  import opened OtaTrack
  import opened OtaSafety
  import opened OtaLanding
  import opened OtaUpgrade
  import H = OtaHost
  import D = OtaDevice

  /** The flash can be erased for the firmware and holds all of it. */
  predicate HasRoom(d: D.Device, plan: H.Plan)
    requires d.sector > 0
  {
    && D.EraseFrom(d.flash, d.sector, plan.start, plan.start + |plan.fw|).ok
    && plan.start + |plan.fw| <= |d.flash|
  }

  lemma RoomIsReceiving(d: D.Device, plan: H.Plan)
    requires H.Valid(plan) && DeviceFits(d) && d.state == D.Idle && HasRoom(d, plan)
    ensures Started(d, plan).state == D.Receiving
  {
  }

  lemma {:induction false} LeadsToTheEnd(b: D.Device, plan: H.Plan, k: nat)
    requires H.Valid(plan) && k <= |plan.fw| && b.start + |plan.fw| <= |b.flash|
    ensures Leads(b, plan, k, |plan.fw|)
    decreases |plan.fw| - k
  {
    if k < |plan.fw| {
      LeadsToTheEnd(b, plan, k + H.LenAt(plan, k));
    }
  }

  // ---------------------------------------------------------------- a second upgrade

  /** A device with room is upgraded in order and without a loss. */
  lemma FirstUpgrade(plan: H.Plan, d: D.Device) returns (actions: seq<Action>, t: System)
    requires Ready(plan) && DeviceFits(d) && d.state == D.Idle && HasRoom(d, plan)
    ensures Takes(Begin(plan, d), actions, t) && AllOrderly(actions) && Reports(t) && Written(t.device.flash, plan)
    ensures t.device.state == D.Complete && t.device.received == t.device.total == |plan.fw|
    ensures Agrees(t.device) && DeviceFits(t.device)
  {
    var b := Started(d, plan);
    IdleStarted(d, plan);
    RoomIsReceiving(d, plan);
    LeadsToTheEnd(b, plan, 0);
    actions, t := LandingRun(plan, d, false);
    FreshLandingIsWritten(b, plan);
    FailedVerifyIsForgotten(t.host, Agrees(t.device));
  }

  /** A device that has completed an upgrade takes no other: START is acknowledged and ignored, nothing is stored, and
      the host of a firmware that is not longer reports success, in order and without a loss. The firmware is in flash
      only if it is the beginning of the first one. */
  lemma SecondUpgradeStoresNothing(plan0: H.Plan, plan1: H.Plan, d: D.Device)
    returns (first: seq<Action>, s: System, second: seq<Action>, t: System)
    requires Ready(plan0) && DeviceFits(d) && d.state == D.Idle && HasRoom(d, plan0)
    requires Ready(plan1) && |plan1.fw| <= |plan0.fw|
    ensures Takes(Begin(plan0, d), first, s) && AllOrderly(first) && Reports(s) && Written(s.device.flash, plan0)
    ensures Takes(Begin(plan1, s.device), second, t) && AllOrderly(second) && Reports(t) && t.device == s.device
    ensures plan1.start == plan0.start ==> (Written(t.device.flash, plan1) <==> plan1.fw <= plan0.fw)
  {
    first, s := FirstUpgrade(plan0, d);
    second, t := LandingRun(plan1, s.device, false);
    FailedVerifyIsForgotten(t.host, Agrees(t.device));
    SlicePrefix(s.device.flash, plan0.start, plan0.fw, plan1.fw);
  }

  lemma SlicePrefix<T>(flash: seq<T>, at: nat, a: seq<T>, b: seq<T>)
    requires at + |a| <= |flash| && flash[at..at + |a|] == a && |b| <= |a|
    ensures flash[at..at + |b|] == b <==> b <= a
  {
    assert flash[at..at + |b|] == a[..|b|];
  }

  // ---------------------------------------------------------------- going on with the same firmware

  lemma TailStored<T>(flash: seq<T>, at: nat, fw: seq<T>, k: nat)
    requires k <= |fw| && at + |fw| <= |flash|
    ensures (flash[..at + k] + fw[k..] + flash[at + |fw|..])[at..at + |fw|] == fw <==> flash[at..at + k] == fw[..k]
  {
    var r := (flash[..at + k] + fw[k..] + flash[at + |fw|..])[at..at + |fw|];
    assert r == flash[at..at + k] + fw[k..];
    assert r[..k] == flash[at..at + k];
    assert fw == fw[..k] + fw[k..];
  }

  /** A session of this size at this place can be taken up again exactly if what it has received is the beginning of
      the firmware. */
  lemma ResumeIsSafeIff(d: D.Device, plan: H.Plan)
    requires H.Valid(plan) && d.state == D.Receiving && d.start == plan.start && d.total == |plan.fw|
    requires d.received <= d.total && d.start + d.total <= |d.flash|
    ensures Safe(d, plan) <==> Holds(d.flash, d.start, plan.fw[..d.received])
  {
    var k, n := d.received, |plan.fw|;
    LeadsToTheEnd(d, plan, k);
    if k == n {
      assert plan.fw[..n] == plan.fw;
    } else {
      assert plan.fw[k..n] == plan.fw[k..];
      TailStored(d.flash, d.start, plan.fw, k);
    }
  }

  // ---------------------------------------------------------------- a restart with another firmware

  /** The device after `k` bytes of a transfer, and a run that takes it there. */
  lemma PartialTransfer(plan: H.Plan, d: D.Device, k: nat) returns (actions: seq<Action>, t: System)
    requires Ready(plan) && DeviceFits(d) && d.state == D.Idle && HasRoom(d, plan)
    requires Leads(Started(d, plan), plan, 0, k)
    ensures Takes(Begin(plan, d), actions, t) && AllOrderly(actions) && Prefix(t.device, plan) && DeviceFits(t.device)
    ensures t.device.state == D.Receiving && t.device.received == k && t.device.expectedCrc == plan.crc
    ensures |t.device.flash| == |d.flash|
  {
    var b := Started(d, plan);
    IdleStarted(d, plan);
    RoomIsReceiving(d, plan);
    StartedOnTrack(d, plan);
    var start, s := StartRound(plan, d);
    var rest;
    rest, t := Transfer(s, b, 0, k);
    TrackIsPrefix(t.device, b, plan);
    TakesJoin(Begin(plan, d), start, s, rest, t);
    actions := start + rest;
  }

  lemma MixedSlice<T>(flash: seq<T>, at: nat, a: seq<T>, b: seq<T>)
    requires at + |a| + |b| <= |flash| && flash[at..at + |a|] == a
    ensures (flash[..at + |a|] + b + flash[at + |a| + |b|..])[at..at + |a| + |b|] == a + b
  {
  }

  /** The first `k` bytes of one firmware, then the other. */
  function Mixed(fw0: seq<Byte>, fw1: seq<Byte>, k: nat): seq<Byte>
    requires k <= |fw0| == |fw1|
  {
    fw0[..k] + fw1[k..]
  }

  lemma MixedLanding(e: D.Device, plan0: H.Plan, plan1: H.Plan)
    requires H.Valid(plan1) && Prefix(e, plan0) && |plan0.fw| == |plan1.fw| && e.start + e.total <= |e.flash|
    ensures Holds(Landed(e, plan1), e.start, Mixed(plan0.fw, plan1.fw, e.received))
  {
    var k, n := e.received, |plan1.fw|;
    if k == n {
      assert Mixed(plan0.fw, plan1.fw, n) == plan0.fw[..n];
    } else {
      assert plan1.fw[k..n] == plan1.fw[k..];
      MixedSlice(e.flash, e.start, plan0.fw[..k], plan1.fw[k..]);
    }
  }

  lemma MixedIs(fw0: seq<Byte>, fw1: seq<Byte>, k: nat)
    requires k <= |fw0| == |fw1|
    ensures Mixed(fw0, fw1, k) == fw1 <==> fw1[..k] == fw0[..k]
  {
    assert Mixed(fw0, fw1, k)[..k] == fw0[..k];
    assert fw1 == fw1[..k] + fw1[k..];
  }

  lemma HoldsOne(flash: seq<Byte>, at: nat, a: seq<Byte>, b: seq<Byte>)
    requires Holds(flash, at, a) && |a| == |b|
    ensures Holds(flash, at, b) <==> a == b
  {
  }

  lemma HeldCrc(flash: seq<Byte>, at: nat, bytes: seq<Byte>)
    requires Holds(flash, at, bytes)
    ensures D.CrcOfFlash(flash, at, |bytes|) == Of(bytes)
  {
  }

  /** The verdict on a mixture. */
  lemma MixedVerdict(e: D.Device, t: D.Device, plan0: H.Plan, plan1: H.Plan)
    requires H.Valid(plan1) && Prefix(e, plan0) && |plan0.fw| == |plan1.fw| && e.start + e.total <= |e.flash|
    requires e.state == D.Receiving && e.expectedCrc == Of(plan0.fw) && LandedAs(t, e, plan1, false)
    ensures var mixed := Mixed(plan0.fw, plan1.fw, e.received);
            Holds(t.flash, plan0.start, mixed) && (Agrees(t) <==> Of(mixed) == Of(plan0.fw))
  {
    MixedLanding(e, plan0, plan1);
    HeldCrc(t.flash, plan0.start, Mixed(plan0.fw, plan1.fw, e.received));
  }

  /** The second half of a restart: the device receives, and has a part of another firmware. */
  lemma RestartRun(plan0: H.Plan, plan1: H.Plan, e: D.Device) returns (actions: seq<Action>, t: System)
    requires Ready(plan0) && Ready(plan1) && |plan1.fw| == |plan0.fw|
    requires DeviceFits(e) && e.state == D.Receiving && Prefix(e, plan0) && e.expectedCrc == plan0.crc
    requires e.start + e.total <= |e.flash|
    ensures Takes(Begin(plan1, e), actions, t) && AllOrderly(actions) && t.host.plan == plan1
    ensures var mixed := Mixed(plan0.fw, plan1.fw, e.received);
            Holds(t.device.flash, plan0.start, mixed) && Judged(t.host, Of(mixed) == Of(plan0.fw))
  {
    LeadsToTheEnd(e, plan1, e.received);
    actions, t := LandingRun(plan1, e, false);
    MixedVerdict(e, t.device, plan0, plan1);
  }

  /** A host started with a firmware of the same size while the device has `k` bytes of another: START is acknowledged
      and ignored, the transfer goes on from `k`, and the region holds a mixture, which the device compares with the
      CRC of the old firmware. If they disagree a tick fails, and the next one reports success. */
  lemma RestartMixes(plan0: H.Plan, plan1: H.Plan, d: D.Device, k: nat)
    returns (first: seq<Action>, s: System, second: seq<Action>, t: System)
    requires Ready(plan0) && DeviceFits(d) && d.state == D.Idle && HasRoom(d, plan0)
    requires Leads(Started(d, plan0), plan0, 0, k) && k <= |plan0.fw|
    requires Ready(plan1) && |plan1.fw| == |plan0.fw| && plan1.start == plan0.start
    ensures Takes(Begin(plan0, d), first, s) && AllOrderly(first) && s.device.received == k
    ensures Takes(Begin(plan1, s.device), second, t) && AllOrderly(second) && t.host.plan == plan1
    ensures var mixed := Mixed(plan0.fw, plan1.fw, k);
            && Holds(t.device.flash, plan1.start, mixed)
            && H.Tick(t.host).status == (if Of(mixed) == Of(plan0.fw) then H.Success else H.Failure)
            && H.Tick(H.Tick(t.host).host).status == H.Success
            && (Written(t.device.flash, plan1) <==> plan1.fw[..k] == plan0.fw[..k])
  {
    first, s := PartialTransfer(plan0, d, k);
    second, t := RestartRun(plan0, plan1, s.device);
    var mixed := Mixed(plan0.fw, plan1.fw, k);
    FailedVerifyIsForgotten(t.host, Of(mixed) == Of(plan0.fw));
    HoldsOne(t.device.flash, plan1.start, mixed, plan1.fw);
    MixedIs(plan0.fw, plan1.fw, k);
  }

  lemma OneByteChangesCrc(fw: seq<Byte>, p: nat, x: Byte)
    requires p < |fw| && x != fw[p]
    ensures Of(fw[p := x]) != Of(fw)
  {
    var front, rest := fw[..p], fw[p + 1..];
    assert fw == front + [fw[p]] + rest && fw[p := x] == front + [x] + rest;
    if Of(fw[p := x]) == Of(fw) {
      OneByteIsDetected(front, x, fw[p], rest);
    }
  }

  /** The failed verification that is forgotten: the firmwares differ before `k`, and after it in one byte. */
  lemma RestartFailsThenReports(plan0: H.Plan, plan1: H.Plan, d: D.Device, k: nat, p: nat)
    returns (first: seq<Action>, s: System, second: seq<Action>, t: System)
    requires Ready(plan0) && DeviceFits(d) && d.state == D.Idle && HasRoom(d, plan0)
    requires Leads(Started(d, plan0), plan0, 0, k) && k <= p < |plan0.fw|
    requires Ready(plan1) && |plan1.fw| == |plan0.fw| && plan1.start == plan0.start
    requires plan1.fw[..k] != plan0.fw[..k] && plan1.fw[p] != plan0.fw[p]
    requires Mixed(plan0.fw, plan1.fw, k) == plan0.fw[p := plan1.fw[p]]
    ensures Takes(Begin(plan0, d), first, s) && s.device.received == k && Takes(Begin(plan1, s.device), second, t)
    ensures AllOrderly(first) && AllOrderly(second) && t.host.plan == plan1
    ensures H.Tick(t.host).status == H.Failure && H.Tick(H.Tick(t.host).host).status == H.Success
    ensures !Written(t.device.flash, plan1)
  {
    OneByteChangesCrc(plan0.fw, p, plan1.fw[p]);
    first, s, second, t := RestartMixes(plan0, plan1, d, k);
  }

  // ---------------------------------------------------------------- the smallest device

  /** Two bytes of flash, one sector, never used. */
  function SmallDevice(): D.Device { D.Device(D.Blank(2), 2, D.Idle, 0, 0, 0, 0, 0, true) }

  function SmallPlan(x: Byte, y: Byte): H.Plan { H.Plan([x, y], 0, Of([x, y]), 1, true) }

  lemma SmallFits(x: Byte, y: Byte)
    ensures Ready(SmallPlan(x, y)) && DeviceFits(SmallDevice()) && HasRoom(SmallDevice(), SmallPlan(x, y))
    ensures Leads(Started(SmallDevice(), SmallPlan(x, y)), SmallPlan(x, y), 0, 1)
  {
    var d, plan := SmallDevice(), SmallPlan(x, y);
    var e := D.EraseOne(d.flash, 2, 0);
    D.EraseStep(d.flash, 2, 0, 2, e);
    IdleStarted(d, plan);
  }

  /** Any two firmwares of two bytes that differ: the second upgrade reports success and stores nothing. */
  lemma SmallSecondUpgrade(x: Byte, y: Byte, x': Byte, y': Byte)
    returns (first: seq<Action>, s: System, second: seq<Action>, t: System)
    requires [x', y'] != [x, y]
    ensures Takes(Begin(SmallPlan(x, y), SmallDevice()), first, s) && Reports(s)
    ensures Takes(Begin(SmallPlan(x', y'), s.device), second, t) && Reports(t)
    ensures Written(t.device.flash, SmallPlan(x, y)) && !Written(t.device.flash, SmallPlan(x', y'))
  {
    SmallFits(x, y);
    SmallFits(x', y');
    first, s, second, t := SecondUpgradeStoresNothing(SmallPlan(x, y), SmallPlan(x', y'), SmallDevice());
  }

  /** If they differ in both bytes: a restart after one byte fails, and then reports success. */
  lemma SmallRestart(x: Byte, y: Byte, x': Byte, y': Byte)
    returns (first: seq<Action>, s: System, second: seq<Action>, t: System)
    requires x' != x && y' != y
    ensures Takes(Begin(SmallPlan(x, y), SmallDevice()), first, s) && s.device.received == 1
    ensures Takes(Begin(SmallPlan(x', y'), s.device), second, t) && t.host.plan == SmallPlan(x', y')
    ensures H.Tick(t.host).status == H.Failure && H.Tick(H.Tick(t.host).host).status == H.Success
    ensures !Written(t.device.flash, SmallPlan(x', y'))
  {
    SmallFits(x, y);
    SmallFits(x', y');
    assert Mixed([x, y], [x', y'], 1) == [x, y][1 := y'];
    first, s, second, t := RestartFailsThenReports(SmallPlan(x, y), SmallPlan(x', y'), SmallDevice(), 1, 1);
  }
}
