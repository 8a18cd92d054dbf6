/** Host and device joined by a link that may lose any frame and deliver the others late and
    in any order, and the runs of the two over it. */
module OtaLink {
  import Crc
  import opened Octets
  import opened Frames
  import opened OtaWire
  import H = OtaHost
  import D = OtaDevice

  /** `up` holds the frames under way to the device, `down` the replies under way to the host. */
  datatype System = System(host: H.Host, device: D.Device, up: seq<Message>, down: seq<Message>)

  datatype Action = HostTick | ToDevice(i: nat) | ToHost(i: nat) | LoseUp(i: nat) | LoseDown(i: nat)

  function Without<T>(s: seq<T>, i: nat): seq<T>
    requires i < |s|
  {
    s[..i] + s[i + 1..]
  }

  // ---------------------------------------------------------------- runs

  predicate DeviceFits(d: D.Device) { D.Fits(d) && |d.flash| < 0x1_0000_0000 }

  /** A frame that every device can read. */
  predicate Contained(m: Message) {
    && |m.data| <= MAX_PAYLOAD
    && (m.cmd == DATA && |m.data| >= DATA_HEADER ==> DATA_HEADER + Read16(m.data, 4) <= MAX_PAYLOAD)
  }

  predicate AllContained(up: seq<Message>) { forall i :: 0 <= i < |up| ==> Contained(up[i]) }

  /** Any host, any device, any readable frames under way. */
  predicate WellFormed(s: System) { H.Valid(s.host.plan) && DeviceFits(s.device) && AllContained(s.up) }

  predicate Enabled(s: System, a: Action) {
    match a
    case HostTick => true
    case ToDevice(i) => i < |s.up|
    case ToHost(i) => i < |s.down|
    case LoseUp(i) => i < |s.up|
    case LoseDown(i) => i < |s.down|
  }

  /** The state after a tick: the frames sent are under way. */
  function After(s: System, r: H.Outcome): System { s.(host := r.host, up := s.up + r.sent) }

  /** One step: the host ticks, or a frame arrives, or a frame is lost. */
  function Step(s: System, a: Action): System
    requires WellFormed(s) && Enabled(s, a)
  {
    match a
    case HostTick => After(s, H.Tick(s.host))
    case ToDevice(i) =>
      var r := D.HandleOta(s.device, s.up[i]);
      s.(device := r.device, up := Without(s.up, i), down := s.down + [r.reply])
    case ToHost(i) => s.(host := H.OnResponse(s.host, s.down[i]), down := Without(s.down, i))
    case LoseUp(i) => s.(up := Without(s.up, i))
    case LoseDown(i) => s.(down := Without(s.down, i))
  }

  lemma SendsContained(step: H.Step, h: H.Host)
    requires H.Valid(h.plan)
    ensures AllContained(H.Do(step, h).sent)
  {
    if step.Chunks? {
      var g := if h.reply.nak then H.Rewound(H.Counted(h)) else h;
      if g.offset < |g.plan.fw| {
        DataRoundTrip(g.offset, H.ChunkAt(g.plan, g.offset));
      }
    }
  }

  lemma {:induction false} DoAllContained(steps: seq<H.Step>, h: H.Host)
    requires H.Valid(h.plan)
    ensures AllContained(H.DoAll(steps, h).sent)
  {
    if steps != [] {
      SendsContained(steps[0], h);
      DoAllContained(steps[1..], H.Do(steps[0], h).host);
    }
  }

  lemma StepWellFormed(s: System, a: Action)
    requires WellFormed(s) && Enabled(s, a)
    ensures WellFormed(Step(s, a)) && Step(s, a).host.plan == s.host.plan
  {
    if a.HostTick? {
      DoAllContained(H.SEQUENCE, s.host);
    }
  }

  /** The state after the actions; an action that is not possible is skipped. */
  function Run(s: System, actions: seq<Action>): (t: System)
    requires WellFormed(s)
    ensures WellFormed(t) && t.host.plan == s.host.plan
    decreases |actions|
  {
    if actions == [] then s
    else if !Enabled(s, actions[0]) then Run(s, actions[1..])
    else
      StepWellFormed(s, actions[0]);
      Run(Step(s, actions[0]), actions[1..])
  }

  lemma {:induction false} RunJoin(s: System, a: seq<Action>, b: seq<Action>)
    requires WellFormed(s)
    ensures Run(s, a + b) == Run(Run(s, a), b)
    decreases |a|
  {
    if a == [] {
      assert a + b == b;
    } else {
      assert (a + b)[1..] == a[1..] + b;
      if Enabled(s, a[0]) {
        StepWellFormed(s, a[0]);
        RunJoin(Step(s, a[0]), a[1..], b);
      } else {
        RunJoin(s, a[1..], b);
      }
    }
  }

  /** The host reports success when it ticks now. */
  predicate Reports(s: System)
    requires WellFormed(s)
  {
    H.Tick(s.host).status == H.Success
  }

  /** No tick of the run has failed: what a driver sees that stops at the first failure. */
  predicate NoFailure(s: System, actions: seq<Action>)
    requires WellFormed(s)
    decreases |actions|
  {
    if actions == [] then true
    else if !Enabled(s, actions[0]) then NoFailure(s, actions[1..])
    else
      StepWellFormed(s, actions[0]);
      (actions[0].HostTick? ==> H.Tick(s.host).status != H.Failure) && NoFailure(Step(s, actions[0]), actions[1..])
  }

  /** An action of a link that loses nothing and keeps the order. */
  predicate Orderly(a: Action) { a == HostTick || a == ToDevice(0) || a == ToHost(0) }

  predicate AllOrderly(actions: seq<Action>) { forall i :: 0 <= i < |actions| ==> Orderly(actions[i]) }

  // ---------------------------------------------------------------- an upgrade begins

  /** A new host with a callback, the CRC computed over its firmware, a device, and an empty link. */
  function Begin(plan: H.Plan, d: D.Device): System { System(H.NewHost(plan), d, [], []) }

  predicate Ready(plan: H.Plan) { H.Valid(plan) && plan.connected && plan.crc == Crc.Of(plan.fw) }

  predicate Holds(flash: seq<Byte>, at: nat, bytes: seq<Byte>) {
    at + |bytes| <= |flash| && flash[at..at + |bytes|] == bytes
  }

  /** The whole firmware is in flash, byte for byte. */
  predicate Written(flash: seq<Byte>, plan: H.Plan) { Holds(flash, plan.start, plan.fw) }
}
