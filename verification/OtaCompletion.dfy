/** Over a link that loses nothing and keeps the order, the upgrade of an idle device completes, whatever the
    schedule. */
module OtaCompletion {
  import opened Frames
  import opened OtaWire
  import opened OtaLink
  import opened OtaTrack
  import opened OtaSafety
  import opened OtaLanding
  import opened OtaUpgrade
  import opened OtaReuse
  import H = OtaHost
  import D = OtaDevice

  // ---------------------------------------------------------------- the script of an upgrade

  /** Positions in the script: 0 before START, `k + 1` before the chunk at `k`, then END and VERIFY. */
  function Final(plan: H.Plan): nat { |plan.fw| + 3 }

  function Next(plan: H.Plan, p: nat): (q: nat)
    requires H.Valid(plan) && p < Final(plan)
    ensures p < q <= Final(plan)
  {
    if 1 <= p <= |plan.fw| then p + H.LenAt(plan, p - 1) else p + 1
  }

  /** The frame the host sends at a position, */
  function FrameAt(plan: H.Plan, p: nat): Message
    requires H.Valid(plan) && p < Final(plan)
  {
    if p == 0 then StartFrame(|plan.fw|, plan.start, plan.crc)
    else if p <= |plan.fw| then DataFrame(p - 1, H.ChunkAt(plan, p - 1))
    else if p == |plan.fw| + 1 then EndFrame()
    else VerifyFrame()
  }

  /** and the device's answer to it. */
  function AnswerAt(plan: H.Plan, p: nat): Message
    requires H.Valid(plan) && p < Final(plan)
  {
    if p == 0 then AckFrame(START, SUCCESS, 0)
    else if p <= |plan.fw| then AckFrame(DATA, SUCCESS, Next(plan, p) - 1)
    else if p == |plan.fw| + 1 then AckFrame(END, SUCCESS, |plan.fw|)
    else VerifyReply(SUCCESS, plan.crc)
  }

  function ItemAt(plan: H.Plan, answer: bool, p: nat): Message
    requires H.Valid(plan) && p < Final(plan)
  {
    if answer then AnswerAt(plan, p) else FrameAt(plan, p)
  }

  /** The queue holds the script from `p` to `q`. */
  predicate Queued(plan: H.Plan, answer: bool, s: seq<Message>, p: nat, q: nat)
    requires H.Valid(plan)
    decreases |s|
  {
    if s == [] then p == q <= Final(plan)
    else p < Final(plan) && s[0] == ItemAt(plan, answer, p) && Queued(plan, answer, s[1..], Next(plan, p), q)
  }

  lemma {:induction false} QueuedMore(plan: H.Plan, answer: bool, s: seq<Message>, p: nat, q: nat)
    requires H.Valid(plan) && Queued(plan, answer, s, p, q) && q < Final(plan)
    ensures Queued(plan, answer, s + [ItemAt(plan, answer, q)], p, Next(plan, q))
    decreases |s|
  {
    var t := s + [ItemAt(plan, answer, q)];
    if s == [] {
      assert t[1..] == [];
    } else {
      assert t[1..] == s[1..] + [ItemAt(plan, answer, q)];
      QueuedMore(plan, answer, s[1..], Next(plan, p), q);
    }
  }

  lemma {:induction false} QueuedBound(plan: H.Plan, answer: bool, s: seq<Message>, p: nat, q: nat)
    requires H.Valid(plan) && Queued(plan, answer, s, p, q)
    ensures p <= q <= Final(plan) && (p == q <==> s == [])
    decreases |s|
  {
    if s != [] {
      QueuedBound(plan, answer, s[1..], Next(plan, p), q);
    }
  }

  // ---------------------------------------------------------------- the two ends

  /** The device has handled the script up to `p`. */
  predicate DeviceAt(d: D.Device, d0: D.Device, plan: H.Plan, p: nat)
    requires H.Valid(plan) && DeviceFits(d0)
  {
    if p == 0 then d == d0
    else
      && Begun(d, d0, plan) && d.received == (if p <= |plan.fw| then p - 1 else |plan.fw|)
      && d.state == if p <= |plan.fw| + 1 then D.Receiving else if p == |plan.fw| + 2 then D.Verifying else D.Complete
  }

  predicate Roomy(d0: D.Device, plan: H.Plan) {
    Ready(plan) && DeviceFits(d0) && d0.state == D.Idle && HasRoom(d0, plan)
  }

  lemma StartStep(d0: D.Device, plan: H.Plan)
    requires Roomy(d0, plan)
    ensures var r := D.HandleOta(d0, FrameAt(plan, 0));
            r.reply == AnswerAt(plan, 0) && DeviceAt(r.device, d0, plan, 1)
  {
    IdleStarted(d0, plan);
    RoomIsReceiving(d0, plan);
    StartHandled(d0, plan);
    StartedOnTrack(d0, plan);
  }

  lemma RoomForChunk(d: D.Device, plan: H.Plan)
    requires H.Valid(plan) && d.state == D.Receiving && d.received < |plan.fw| && d.start + |plan.fw| <= |d.flash|
    ensures var e := AfterChunk(d, plan, d.received);
            e.state == D.Receiving && e.received == d.received + H.LenAt(plan, d.received)
  {
  }

  lemma StillReceiving(e: D.Device, d0: D.Device, plan: H.Plan, p: nat)
    requires H.Valid(plan) && DeviceFits(d0) && 1 <= p <= |plan.fw| + 1
    requires Begun(e, d0, plan) && e.state == D.Receiving && e.received == p - 1
    ensures DeviceAt(e, d0, plan, p)
  {
  }

  lemma ChunkAt(plan: H.Plan, p: nat, d: D.Device, e: D.Device)
    requires H.Valid(plan) && 1 <= p <= |plan.fw| && DeviceFits(e)
    requires d.received == p - 1 && e.received == Next(plan, p) - 1
    ensures FrameAt(plan, p) == DataFrame(p - 1, H.ChunkAt(plan, p - 1))
    ensures AnswerAt(plan, p) == ChunkReply(d, e, p - 1)
  {
  }

  lemma ChunkStep(d: D.Device, d0: D.Device, plan: H.Plan, p: nat)
    requires Roomy(d0, plan) && 1 <= p <= |plan.fw| && DeviceAt(d, d0, plan, p)
    ensures var r := D.HandleOta(d, FrameAt(plan, p));
            r.reply == AnswerAt(plan, p) && DeviceAt(r.device, d0, plan, Next(plan, p))
  {
    var e := AfterChunk(d, plan, p - 1);
    RoomIsThere(d, d0, plan);
    RoomForChunk(d, plan);
    ChunkHandled(d, plan, p - 1);
    ChunkAt(plan, p, d, e);
    ChunkOnTrack(d, Started(d0, plan), plan, p - 1);
    StillReceiving(e, d0, plan, Next(plan, p));
  }

  lemma RoomIsThere(d: D.Device, d0: D.Device, plan: H.Plan)
    requires Roomy(d0, plan) && Begun(d, d0, plan)
    ensures DeviceFits(d) && d.start + |plan.fw| <= |d.flash|
  {
    IdleStarted(d0, plan);
  }

  lemma EndStep(d: D.Device, d0: D.Device, plan: H.Plan)
    requires Roomy(d0, plan) && DeviceAt(d, d0, plan, |plan.fw| + 1)
    ensures var r := D.HandleOta(d, EndFrame());
            r.reply == AnswerAt(plan, |plan.fw| + 1) && DeviceAt(r.device, d0, plan, |plan.fw| + 2)
  {
    IdleStarted(d0, plan);
    EndHandled(d);
    EndOnTrack(d, Started(d0, plan), plan);
  }

  lemma VerifyStep(d: D.Device, d0: D.Device, plan: H.Plan)
    requires Roomy(d0, plan) && DeviceAt(d, d0, plan, |plan.fw| + 2)
    ensures var r := D.HandleOta(d, VerifyFrame());
            r.reply == AnswerAt(plan, |plan.fw| + 2) && DeviceAt(r.device, d0, plan, |plan.fw| + 3)
  {
    IdleStarted(d0, plan);
    IdleAgrees(d, d0, plan);
    VerifyHandled(d);
    VerifyOnTrack(d, Started(d0, plan), plan);
  }

  lemma DeviceStep(d: D.Device, d0: D.Device, plan: H.Plan, p: nat)
    requires Roomy(d0, plan) && p < Final(plan) && DeviceAt(d, d0, plan, p) && DeviceFits(d)
    ensures var r := D.HandleOta(d, FrameAt(plan, p));
            r.reply == AnswerAt(plan, p) && DeviceAt(r.device, d0, plan, Next(plan, p))
  {
    if p == 0 {
      StartStep(d0, plan);
    } else if p <= |plan.fw| {
      ChunkStep(d, d0, plan, p);
    } else if p == |plan.fw| + 1 {
      EndStep(d, d0, plan);
    } else {
      VerifyStep(d, d0, plan);
    }
  }

  /** The host has sent the script up to `q` and heard the answers up to `r`. */
  predicate HostAt(h: H.Host, r: nat, q: nat)
    requires H.Valid(h.plan)
  {
    var n := |h.plan.fw|;
    && r <= q && h.plan.connected && !h.reply.nak
    && if q == 0 then h == H.NewHost(h.plan)
       else if q == 1 then
         && h.phases == H.Phases(H.Wait, H.Send, H.Send) && h.offset == 0
         && (h.reply.ackReceived <==> r == 1) && (r == 1 ==> h.reply.lastStatus == SUCCESS)
       else if q <= n + 1 then
         h.phases == H.Phases(H.Done, H.Send, H.Send) && h.offset == q - 1 && r >= 1
       else if q == n + 2 then
         && h.phases == H.Phases(H.Done, H.Wait, H.Send) && h.offset == n && r >= 1
         && (h.reply.ackReceived <==> r == q) && (r == q ==> h.reply.lastStatus == SUCCESS)
       else
         && q == n + 3 && h.phases.start == H.Done && h.phases.end == H.Done && h.phases.verify != H.Send
         && h.offset == n && r >= n + 2 && (h.phases.verify == H.Done ==> r == q)
         && (h.verdict.received <==> r == q) && (r == q ==> h.verdict.ok)
  }

  /** A tick sends the next frame of the script, or waits, or reports success when every answer is in; it never fails,
      and it does not wait when there is nothing to wait for. */
  lemma TickAt(h: H.Host, r: nat, q: nat)
    requires H.Valid(h.plan) && HostAt(h, r, q)
    ensures var t := H.Tick(h);
            && t.status != H.Failure && (t.status == H.Success <==> r == Final(h.plan))
            && if t.sent == [] then HostAt(t.host, r, q) && (r == q ==> q == Final(h.plan))
               else q < Final(h.plan) && t.sent == [FrameAt(h.plan, q)] && HostAt(t.host, r, Next(h.plan, q))
  {
    H.TickIs(h);
  }

  /** An answer that arrives in turn. */
  lemma HeardAt(h: H.Host, r: nat, q: nat)
    requires H.Valid(h.plan) && HostAt(h, r, q) && r < q && Next(h.plan, r) <= q
    ensures var g := H.OnResponse(h, AnswerAt(h.plan, r));
            g.plan == h.plan && HostAt(g, Next(h.plan, r), q)
  {
    var n := |h.plan.fw|;
    if r == 0 {
      AckHeard(h, START, SUCCESS, 0);
    } else if r <= n {
      DataHeard(h, SUCCESS, Next(h.plan, r) - 1);
    } else if r == n + 1 {
      AckHeard(h, END, SUCCESS, n);
    } else {
      VerdictHeard(h, SUCCESS, h.plan.crc);
    }
  }

  // ---------------------------------------------------------------- runs in order

  /** How far the answers are heard, the frames handled, and the frames sent. */
  datatype Place = Place(heard: nat, handled: nat, sent: nat)

  function Sum(w: Place): nat { w.heard + w.handled + w.sent }

  predicate Smooth(s: System, d0: D.Device, w: Place) {
    && WellFormed(s) && Roomy(d0, s.host.plan)
    && HostAt(s.host, w.heard, w.sent) && DeviceAt(s.device, d0, s.host.plan, w.handled)
    && Queued(s.host.plan, false, s.up, w.handled, w.sent) && Queued(s.host.plan, true, s.down, w.heard, w.handled)
  }

  lemma TickSmooth(s: System, d0: D.Device, w: Place) returns (t: System, v: Place)
    requires Smooth(s, d0, w)
    ensures t == Step(s, HostTick) && Smooth(t, d0, v) && H.Tick(s.host).status != H.Failure
    ensures if v == w then SameLink(s, t) && (w.heard == w.sent ==> w.sent == Final(s.host.plan)) else Sum(w) < Sum(v)
  {
    var plan, r := s.host.plan, H.Tick(s.host);
    TickAt(s.host, w.heard, w.sent);
    StepWellFormed(s, HostTick);
    t := After(s, r);
    if r.sent == [] {
      assert s.up + r.sent == s.up;
      v := w;
    } else {
      QueuedMore(plan, false, s.up, w.handled, w.sent);
      v := w.(sent := Next(plan, w.sent));
    }
  }

  lemma HandledQueues(plan: H.Plan, up: seq<Message>, down: seq<Message>, w: Place)
    requires H.Valid(plan) && up != []
    requires Queued(plan, false, up, w.handled, w.sent) && Queued(plan, true, down, w.heard, w.handled)
    ensures w.handled < Final(plan) && up[0] == FrameAt(plan, w.handled)
    ensures Queued(plan, false, Without(up, 0), Next(plan, w.handled), w.sent)
    ensures Queued(plan, true, down + [AnswerAt(plan, w.handled)], w.heard, Next(plan, w.handled))
  {
    assert Without(up, 0) == up[1..];
    QueuedMore(plan, true, down, w.heard, w.handled);
  }

  lemma ToDeviceSmooth(s: System, d0: D.Device, w: Place) returns (t: System, v: Place)
    requires Smooth(s, d0, w) && s.up != []
    ensures t == Step(s, ToDevice(0)) && Smooth(t, d0, v) && Sum(w) < Sum(v)
  {
    var plan := s.host.plan;
    HandledQueues(plan, s.up, s.down, w);
    DeviceStep(s.device, d0, plan, w.handled);
    StepWellFormed(s, ToDevice(0));
    t, v := Step(s, ToDevice(0)), w.(handled := Next(plan, w.handled));
  }

  lemma ToHostSmooth(s: System, d0: D.Device, w: Place) returns (t: System, v: Place)
    requires Smooth(s, d0, w) && s.down != []
    ensures t == Step(s, ToHost(0)) && Smooth(t, d0, v) && Sum(w) < Sum(v)
  {
    var plan := s.host.plan;
    QueuedBound(plan, true, s.down[1..], Next(plan, w.heard), w.handled);
    QueuedBound(plan, false, s.up, w.handled, w.sent);
    HeardAt(s.host, w.heard, w.sent);
    StepWellFormed(s, ToHost(0));
    assert Without(s.down, 0) == s.down[1..];
    t, v := Step(s, ToHost(0)), w.(heard := Next(plan, w.heard));
  }

  predicate SameLink(s: System, t: System) { t.up == s.up && t.down == s.down && t.host.plan == s.host.plan }

  lemma PlaceBound(s: System, d0: D.Device, w: Place)
    requires Smooth(s, d0, w)
    ensures w.heard <= w.handled <= w.sent <= Final(s.host.plan)
    ensures (w.heard == w.handled <==> s.down == []) && (w.handled == w.sent <==> s.up == [])
  {
    QueuedBound(s.host.plan, true, s.down, w.heard, w.handled);
    QueuedBound(s.host.plan, false, s.up, w.handled, w.sent);
  }

  /** The upgrade has come `n` positions on, over host, link and device. */
  ghost predicate On(s: System, d0: D.Device, n: nat) {
    WellFormed(s) && exists w :: Smooth(s, d0, w) && Sum(w) == n
  }

  lemma OnBound(s: System, d0: D.Device, n: nat)
    requires On(s, d0, n)
    ensures n <= 3 * Final(s.host.plan) && (Reports(s) <==> n == 3 * Final(s.host.plan))
    ensures Reports(s) ==> s.device.state == D.Complete
  {
    var w :| Smooth(s, d0, w) && Sum(w) == n;
    PlaceBound(s, d0, w);
    TickAt(s.host, w.heard, w.sent);
  }

  /** An action that brings the upgrade on. */
  predicate Effective(s: System, n: nat, a: Action) {
    match a
    case HostTick => s.up == [] && s.down == [] && n < 3 * Final(s.host.plan)
    case ToDevice(_) => s.up != []
    case ToHost(_) => s.down != []
    case _ => false
  }

  lemma TakesNone(s: System, a: Action)
    requires WellFormed(s) && !Enabled(s, a)
    ensures Takes(s, [a], s)
  {
    assert [a][1..] == [];
    assert Run(s, []) == s && NoFailure(s, []);
  }

  lemma TakesFirst(s: System, actions: seq<Action>, t: System, u: System)
    requires actions != [] && Takes(s, [actions[0]], t) && Takes(t, actions[1..], u)
    ensures Takes(s, actions, u)
  {
    TakesJoin(s, [actions[0]], t, actions[1..], u);
    assert [actions[0]] + actions[1..] == actions;
  }

  lemma OnAt(s: System, d0: D.Device, w: Place)
    requires Smooth(s, d0, w)
    ensures On(s, d0, Sum(w))
  {
  }

  lemma TickOn(s: System, d0: D.Device, n: nat) returns (t: System, m: nat)
    requires On(s, d0, n)
    ensures t == Step(s, HostTick) && On(t, d0, m) && H.Tick(s.host).status != H.Failure
    ensures n <= m && (Effective(s, n, HostTick) ==> n < m) && (n == m ==> SameLink(s, t))
  {
    var w :| Smooth(s, d0, w) && Sum(w) == n;
    PlaceBound(s, d0, w);
    var v;
    t, v := TickSmooth(s, d0, w);
    OnAt(t, d0, v);
    m := Sum(v);
  }

  lemma ToDeviceOn(s: System, d0: D.Device, n: nat) returns (t: System, m: nat)
    requires On(s, d0, n) && s.up != []
    ensures t == Step(s, ToDevice(0)) && On(t, d0, m) && n < m
  {
    var w :| Smooth(s, d0, w) && Sum(w) == n;
    var v;
    t, v := ToDeviceSmooth(s, d0, w);
    OnAt(t, d0, v);
    m := Sum(v);
  }

  lemma ToHostOn(s: System, d0: D.Device, n: nat) returns (t: System, m: nat)
    requires On(s, d0, n) && s.down != []
    ensures t == Step(s, ToHost(0)) && On(t, d0, m) && n < m
  {
    var w :| Smooth(s, d0, w) && Sum(w) == n;
    var v;
    t, v := ToHostSmooth(s, d0, w);
    OnAt(t, d0, v);
    m := Sum(v);
  }

  lemma StepOn(s: System, d0: D.Device, n: nat, a: Action) returns (t: System, m: nat)
    requires On(s, d0, n) && Orderly(a)
    ensures Takes(s, [a], t) && On(t, d0, m) && t.host.plan == s.host.plan
    ensures n <= m && (Effective(s, n, a) ==> n < m) && (n == m ==> SameLink(s, t))
  {
    if !Enabled(s, a) {
      TakesNone(s, a);
      t, m := s, n;
    } else {
      if a == HostTick {
        t, m := TickOn(s, d0, n);
      } else if a == ToDevice(0) {
        t, m := ToDeviceOn(s, d0, n);
      } else {
        t, m := ToHostOn(s, d0, n);
      }
      StepWellFormed(s, a);
      TakesOne(s, a);
    }
  }

  lemma StillEffective(s: System, t: System, n: nat, m: nat, a: Action)
    requires n == m ==> SameLink(s, t)
    ensures n == m && Effective(s, n, a) ==> Effective(t, m, a)
  {
  }

  /** Actions in order never fail and never lead back. */
  lemma {:induction false} RunOn(s: System, d0: D.Device, n: nat, actions: seq<Action>) returns (t: System, m: nat)
    requires On(s, d0, n) && AllOrderly(actions)
    ensures Takes(s, actions, t) && On(t, d0, m) && t.host.plan == s.host.plan
    ensures n <= m && (n == m ==> SameLink(s, t))
    decreases |actions|
  {
    if actions == [] {
      t, m := s, n;
    } else {
      var t1, m1 := StepOn(s, d0, n, actions[0]);
      t, m := RunOn(t1, d0, m1, actions[1..]);
      TakesFirst(s, actions, t1, t);
    }
  }

  /** An action that is effective at the start leads on when its turn comes, */
  lemma TurnLeadsOn(s: System, d0: D.Device, n: nat, before: seq<Action>, a: Action) returns (t: System, m: nat)
    requires On(s, d0, n) && AllOrderly(before) && Orderly(a) && Effective(s, n, a)
    ensures Takes(s, before + [a], t) && On(t, d0, m) && t.host.plan == s.host.plan && n < m
  {
    var t1, m1 := RunOn(s, d0, n, before);
    StillEffective(s, t1, n, m1, a);
    t, m := StepOn(t1, d0, m1, a);
    TakesJoin(s, before, t1, [a], t);
  }

  /** and so the actions that contain it lead on. */
  lemma RunLeadsOn(s: System, d0: D.Device, n: nat, before: seq<Action>, a: Action, rest: seq<Action>)
    returns (t: System, m: nat)
    requires On(s, d0, n) && AllOrderly(before) && AllOrderly(rest) && Orderly(a) && Effective(s, n, a)
    ensures Takes(s, before + [a] + rest, t) && On(t, d0, m) && t.host.plan == s.host.plan && n < m
  {
    var t1, m1 := TurnLeadsOn(s, d0, n, before, a);
    t, m := RunOn(t1, d0, m1, rest);
    TakesJoin(s, before + [a], t1, rest, t);
  }

  /** A round in any order: the host ticks and each end of the link delivers, at least once. */
  predicate IsRound(actions: seq<Action>) {
    AllOrderly(actions) && HostTick in actions && ToDevice(0) in actions && ToHost(0) in actions
  }

  function Joined(rounds: seq<seq<Action>>): seq<Action> {
    if rounds == [] then [] else rounds[0] + Joined(rounds[1..])
  }

  lemma SomeIsEffective(s: System, n: nat, actions: seq<Action>)
    returns (before: seq<Action>, a: Action, rest: seq<Action>)
    requires IsRound(actions) && n < 3 * Final(s.host.plan)
    ensures actions == before + [a] + rest && AllOrderly(before) && AllOrderly(rest) && Orderly(a) && Effective(s, n, a)
  {
    a := if s.down != [] then ToHost(0) else if s.up != [] then ToDevice(0) else HostTick;
    var i :| 0 <= i < |actions| && actions[i] == a;
    before, rest := actions[..i], actions[i + 1..];
  }

  lemma RoundOn(s: System, d0: D.Device, n: nat, actions: seq<Action>) returns (t: System, m: nat)
    requires On(s, d0, n) && IsRound(actions)
    ensures Takes(s, actions, t) && On(t, d0, m) && t.host.plan == s.host.plan && n <= m
    ensures n < 3 * Final(s.host.plan) ==> n < m
  {
    if n < 3 * Final(s.host.plan) {
      var before, a, rest := SomeIsEffective(s, n, actions);
      t, m := RunLeadsOn(s, d0, n, before, a, rest);
    } else {
      t, m := RunOn(s, d0, n, actions);
    }
  }

  lemma {:induction false} RoundsOn(s: System, d0: D.Device, n: nat, rounds: seq<seq<Action>>) returns (t: System)
    requires On(s, d0, n) && (forall i :: 0 <= i < |rounds| ==> IsRound(rounds[i]))
    requires n + |rounds| >= 3 * Final(s.host.plan)
    ensures Takes(s, Joined(rounds), t) && On(t, d0, 3 * Final(s.host.plan)) && t.host.plan == s.host.plan
    decreases |rounds|
  {
    OnBound(s, d0, n);
    if rounds == [] {
      t := s;
    } else {
      var t1, m := RoundOn(s, d0, n, rounds[0]);
      t := RoundsOn(t1, d0, m, rounds[1..]);
      TakesJoin(s, rounds[0], t1, Joined(rounds[1..]), t);
    }
  }

  lemma BeginOn(plan: H.Plan, d: D.Device)
    requires Roomy(d, plan)
    ensures On(Begin(plan, d), d, 0)
  {
    assert Smooth(Begin(plan, d), d, Place(0, 0, 0));
  }

  /** Every schedule in order and without losses that has enough rounds ends in success: no tick of it fails, at its
      end the host reports success, and the firmware is in flash. */
  lemma EveryOrderlyScheduleCompletes(plan: H.Plan, d: D.Device, rounds: seq<seq<Action>>)
    requires Ready(plan) && DeviceFits(d) && d.state == D.Idle && HasRoom(d, plan)
    requires |rounds| >= 3 * (|plan.fw| + 3) && forall i :: 0 <= i < |rounds| ==> IsRound(rounds[i])
    ensures var s, actions := Begin(plan, d), Joined(rounds);
            && NoFailure(s, actions) && Reports(Run(s, actions)) && Written(Run(s, actions).device.flash, plan)
            && Run(s, actions).device.state == D.Complete
  {
    BeginOn(plan, d);
    var t := RoundsOn(Begin(plan, d), d, 0, rounds);
    OnBound(t, d, 3 * Final(plan));
    SuccessMeansWritten(plan, d, Joined(rounds));
  }
}
