/** How far the claimed positions can run ahead of the stored consumer position,
    although admission decides on stale loads. */
module BusDepth {
  import opened Options
  import opened Bus
  import opened BusSafety
  import opened Sets

  /** Calls that loaded a producer position and may still claim one. */
  predicate Armed(call: Call) {
    call.LoadCached? || call.LoadReal? || call.StoreCached? || call.CountRecheck? || call.Claiming()
  }

  /** The armed calls whose loaded position is at most `x`. */
  ghost function ArmedUpTo(calls: map<nat, Call>, x: int): set<nat> {
    set t | t in calls && Armed(calls[t]) && calls[t].prod <= x
  }

  /** The priorities of the calls considered: those up to a top one. */
  predicate UpTo(p: Priority, top: Priority) { p == top || p == Low || top == High }

  ghost predicate AllUpTo(calls: map<nat, Call>, top: Priority) {
    forall t :: t in calls ==> UpTo(calls[t].req.priority, top)
  }

  function Limit(s: State, top: Priority): nat { Threshold(s.cfg.depth, top) }

  /** For every level `x` at or above the admission level, the positions claimed above
      `x` and the calls that could still claim from below it fit in the call bound. */
  ghost predicate Room(s: State, x: int) {
    s.producerPos - x + |ArmedUpTo(s.calls, x)| <= s.cfg.maxCalls
  }

  ghost predicate DepthInv(s: State, top: Priority) {
    && |s.calls| <= s.cfg.maxCalls
    && AllUpTo(s.calls, top)
    && (forall t :: t in s.calls && s.calls[t].Claiming() ==> s.calls[t].prod < s.consumerPos + Limit(s, top))
    && (forall x: int :: s.consumerPos + Limit(s, top) - 1 <= x ==> Room(s, x))
  }

  lemma ArmedAreCalls(calls: map<nat, Call>, x: int)
    ensures |ArmedUpTo(calls, x)| <= |calls|
  {
    SubsetSize(ArmedUpTo(calls, x), calls.Keys);
  }

  /** A step that arms no call and claims nothing. */
  ghost predicate Disarms(s: State, s': State) {
    && s'.cfg == s.cfg && s'.producerPos == s.producerPos && s.consumerPos <= s'.consumerPos
    && (forall u :: u in s'.calls && Armed(s'.calls[u]) ==>
          u in s.calls && Armed(s.calls[u]) && s'.calls[u].prod == s.calls[u].prod)
  }

  lemma DisarmKeeps(s: State, s': State, top: Priority)
    requires DepthInv(s, top) && Disarms(s, s') && |s'.calls| <= s'.cfg.maxCalls
    requires AllUpTo(s'.calls, top)
    requires forall t :: t in s'.calls && s'.calls[t].Claiming() ==> s'.calls[t].prod < s'.consumerPos + Limit(s', top)
    ensures DepthInv(s', top)
  {
    forall x: int | s'.consumerPos + Limit(s', top) - 1 <= x ensures Room(s', x) {
      assert Room(s, x);
      SubsetSize(ArmedUpTo(s'.calls, x), ArmedUpTo(s.calls, x));
    }
  }

  /** Call `t` returns or goes on, disarmed or armed as before. */
  lemma EndKeeps(s: State, e: State, t: nat, next: Option<Call>, top: Priority)
    requires DepthInv(s, top) && t in s.calls && e.calls == s.calls
    requires e.cfg == s.cfg && e.producerPos == s.producerPos && e.consumerPos == s.consumerPos
    requires next.Some? ==> next.value.req == s.calls[t].req
    requires next.Some? && Armed(next.value) ==> Armed(s.calls[t]) && next.value.prod == s.calls[t].prod
    requires next.Some? && next.value.Claiming() ==> next.value.prod < s.consumerPos + Limit(s, top)
    ensures DepthInv(e.End(t, next), top)
  {
    var s' := e.End(t, next);
    SubsetSize(s'.calls.Keys, s.calls.Keys);
    DisarmKeeps(s, s', top);
  }

  /** Loading the producer position arms a call at the current level. */
  lemma ArmKeeps(s: State, t: nat, req: Request, top: Priority)
    requires DepthInv(s, top) && t in s.calls && s.calls[t] == LoadProd(req)
    ensures DepthInv(s.Go(t, LoadCached(req, s.producerPos)), top)
  {
    var s' := s.Go(t, LoadCached(req, s.producerPos));
    assert s'.calls.Keys == s.calls.Keys;
    forall x: int | s'.consumerPos + Limit(s', top) - 1 <= x ensures Room(s', x) {
      assert Room(s, x);
      if x < s.producerPos {
        assert ArmedUpTo(s'.calls, x) == ArmedUpTo(s.calls, x);
      } else {
        ArmedAreCalls(s'.calls, x);
      }
    }
  }

  /** A successful claim trades one armed call for one position. */
  lemma ClaimKeeps(s: State, s': State, t: nat, call: Call, top: Priority)
    requires DepthInv(s, top) && t in s.calls && s.calls[t].Claiming() && !Armed(call) && call.req == s.calls[t].req
    requires s'.calls == s.calls[t := call] && s'.producerPos == s.producerPos + 1
    requires s'.cfg == s.cfg && s'.consumerPos == s.consumerPos
    ensures DepthInv(s', top)
  {
    assert s'.calls.Keys == s.calls.Keys;
    forall x: int | s'.consumerPos + Limit(s', top) - 1 <= x ensures Room(s', x) {
      assert Room(s, x);
      assert t in ArmedUpTo(s.calls, x);
      assert ArmedUpTo(s'.calls, x) == ArmedUpTo(s.calls, x) - {t};
    }
  }

  lemma ThresholdsAreOrdered(depth: nat, p: Priority, top: Priority)
    requires UpTo(p, top)
    ensures Threshold(depth, p) <= Threshold(depth, top)
  {}

  /** A call passes admission only below the limit, on a cursor value that is no
      newer than the stored one. */
  lemma AdmissionIsBelowLimit(s: State, call: Call, top: Priority)
    requires Positions(s) && call.Admitting() && CallFacts(s, call) && UpTo(call.req.priority, top)
    requires AdmissionNext(s, call).Some? && AdmissionNext(s, call).value.Claiming()
    ensures Armed(call) && AdmissionNext(s, call).value.prod == call.prod < s.consumerPos + Limit(s, top)
  {
    ThresholdsAreOrdered(s.cfg.depth, call.req.priority, top);
  }

  lemma AdmissionKeeps(s: State, t: nat, top: Priority)
    requires Inv(s) && DepthInv(s, top) && t in s.calls && s.calls[t].Admitting()
    ensures DepthInv(StepCall(s, t, false), top)
  {
    var call := s.calls[t];
    if call.LoadProd? {
      ArmKeeps(s, t, call.req, top);
    } else {
      var next := AdmissionNext(s, call);
      assert CallFacts(s, call);
      if next.Some? && next.value.Claiming() { AdmissionIsBelowLimit(s, call, top); }
      EndKeeps(s, AdmissionEffect(s, call), t, next, top);
    }
  }

  lemma ClaimingKeeps(s: State, t: nat, weak: bool, top: Priority)
    requires s.WellFormed() && DepthInv(s, top) && t in s.calls && s.calls[t].Claiming()
    ensures DepthInv(ClaimEffect(s, s.calls[t], weak).Go(t, ClaimNext(s, s.calls[t], weak)), top)
  {
    var call, e, next := s.calls[t], ClaimEffect(s, s.calls[t], weak), ClaimNext(s, s.calls[t], weak);
    if ClaimSucceeds(s, call, weak) {
      ClaimKeeps(s, e.Go(t, next), t, next, top);
    } else {
      EndKeeps(s, e, t, Some(next), top);
    }
  }

  lemma CallKeeps(s: State, t: nat, weak: bool, top: Priority)
    requires Inv(s) && DepthInv(s, top) && Enabled(s, Advance(t, weak))
    ensures DepthInv(StepCall(s, t, weak), top)
  {
    if s.calls[t].Admitting() {
      AdmissionKeeps(s, t, top);
    } else if s.calls[t].Claiming() {
      ClaimingKeeps(s, t, weak, top);
    } else {
      DisarmedKeeps(s, t, weak, top);
    }
  }

  lemma EvictKeeps(s: State, t: nat, top: Priority)
    requires s.WellFormed() && DepthInv(s, top) && t in s.calls && s.calls[t].Evicting()
    ensures DepthInv(EvictEffect(s, s.calls[t]).Go(t, EvictNext(s, s.calls[t])), top)
  {
    EvictingIsDisarmed(s, s.calls[t]);
    EndKeeps(s, EvictEffect(s, s.calls[t]), t, Some(EvictNext(s, s.calls[t])), top);
  }

  lemma OwnKeeps(s: State, t: nat, top: Priority)
    requires s.WellFormed() && DepthInv(s, top) && t in s.calls && s.calls[t].Own? && s.calls[t].pos < |s.content|
    ensures DepthInv(OwnEffect(s, s.calls[t]).Go(t, OwnNext(s, s.calls[t])), top)
  {
    OwningIsDisarmed(s, s.calls[t]);
    EndKeeps(s, OwnEffect(s, s.calls[t]), t, Some(OwnNext(s, s.calls[t])), top);
  }

  lemma CountKeeps(s: State, t: nat, top: Priority)
    requires DepthInv(s, top) && t in s.calls && s.calls[t].Counting()
    ensures DepthInv(CountEffect(s, s.calls[t]).End(t, CountNext(s.calls[t])), top)
  {
    EndKeeps(s, CountEffect(s, s.calls[t]), t, CountNext(s.calls[t]), top);
  }

  lemma CallParts(s: State, t: nat, weak: bool)
    requires s.WellFormed() && Enabled(s, Advance(t, weak))
    ensures var call := s.calls[t];
            && (call.Evicting() ==> StepCall(s, t, weak) == EvictEffect(s, call).Go(t, EvictNext(s, call)))
            && (call.Own? ==> StepCall(s, t, weak) == OwnEffect(s, call).Go(t, OwnNext(s, call)))
            && (call.Counting() ==> StepCall(s, t, weak) == CountEffect(s, call).End(t, CountNext(call)))
  {}

  lemma DisarmedKeeps(s: State, t: nat, weak: bool, top: Priority)
    requires s.WellFormed() && DepthInv(s, top) && Enabled(s, Advance(t, weak))
    requires s.calls[t].Evicting() || s.calls[t].Own? || s.calls[t].Counting()
    ensures DepthInv(StepCall(s, t, weak), top)
  {
    CallParts(s, t, weak);
    if s.calls[t].Evicting() {
      EvictKeeps(s, t, top);
    } else if s.calls[t].Own? {
      OwnKeeps(s, t, top);
    } else {
      CountKeeps(s, t, top);
    }
  }

  lemma EvictingIsDisarmed(s: State, call: Call)
    requires s.WellFormed() && call.Evicting()
    ensures !Armed(EvictNext(s, call))
  {}

  lemma OwningIsDisarmed(s: State, call: Call)
    requires call.Own?
    ensures !Armed(OwnNext(s, call))
  {}

  lemma ConsumerKeeps(s: State, s': State, top: Priority)
    requires DepthInv(s, top) && s'.calls == s.calls && s'.cfg == s.cfg
    requires s'.producerPos == s.producerPos && s.consumerPos <= s'.consumerPos
    ensures DepthInv(s', top)
  {
    DisarmKeeps(s, s', top);
  }

  lemma StartKeeps(s: State, s': State, t: nat, req: Request, top: Priority)
    requires DepthInv(s, top) && t !in s.calls && |s.calls| < s.cfg.maxCalls && s' == s.Go(t, CheckId(req))
    requires UpTo(req.priority, top)
    ensures DepthInv(s', top)
  {
    assert s'.calls.Keys == s.calls.Keys + {t};
    assert Disarms(s, s') && AllUpTo(s'.calls, top);
    DisarmKeeps(s, s', top);
  }

  lemma StepKeeps(s: State, a: Action, top: Priority)
    requires Inv(s) && DepthInv(s, top) && Enabled(s, a) && (a.Start? ==> UpTo(a.req.priority, top))
    ensures DepthInv(Step(s, a), top)
  {
    match a {
      case Start(t, req) => StartKeeps(s, Step(s, a), t, req, top);
      case Advance(t, weak) => CallKeeps(s, t, weak, top);
      case Consume => ConsumerKeeps(s, Step(s, a), top);
    }
  }

  predicate StartsUpTo(schedule: seq<Action>, top: Priority) {
    forall i :: 0 <= i < |schedule| && schedule[i].Start? ==> UpTo(schedule[i].req.priority, top)
  }

  lemma {:induction false} RunKeeps(s: State, schedule: seq<Action>, top: Priority)
    requires Inv(s) && DepthInv(s, top) && StartsUpTo(schedule, top)
    ensures Inv(Run(s, schedule)) && DepthInv(Run(s, schedule), top)
    decreases |schedule|
  {
    if schedule != [] {
      var a := schedule[0];
      if Enabled(s, a) {
        StepInv(s, a);
        StepKeeps(s, a, top);
        RunKeeps(Step(s, a), schedule[1..], top);
      } else {
        RunKeeps(s, schedule[1..], top);
      }
    }
  }

  lemma InitDepth(cfg: Config, top: Priority)
    requires cfg.Valid()
    ensures DepthInv(Init(cfg), top)
  {
    var s := Init(cfg);
    forall x: int | s.consumerPos + Limit(s, top) - 1 <= x ensures Room(s, x) {
      assert ArmedUpTo(s.calls, x) == {};
    }
  }

  lemma DepthUpTo(cfg: Config, schedule: seq<Action>, top: Priority)
    requires cfg.Valid() && StartsUpTo(schedule, top)
    ensures 0 <= QueueDepth(Run(Init(cfg), schedule)) <= Threshold(cfg.depth, top) + cfg.maxCalls - 1
  {
    InitInv(cfg);
    InitDepth(cfg, top);
    RunKeeps(Init(cfg), schedule, top);
    var s := Run(Init(cfg), schedule);
    assert Room(s, s.consumerPos + Limit(s, top) - 1);
  }

  /** With at most K publishing calls in flight, the queue depth never exceeds 99 percent of the ring by more than
      K - 1 (and never those 99 percent when K is 0); with only LOW and MEDIUM messages it is 80 percent, and with only
      LOW ones 60. */
  lemma DepthIsBounded(cfg: Config, schedule: seq<Action>)
    requires cfg.Valid()
    ensures var depth := QueueDepth(Run(Init(cfg), schedule));
            && 0 <= depth <= cfg.depth * 99 / 100 + cfg.maxCalls - 1
            && (StartsUpTo(schedule, Medium) ==> depth <= cfg.depth * 80 / 100 + cfg.maxCalls - 1)
            && (StartsUpTo(schedule, Low) ==> depth <= cfg.depth * 60 / 100 + cfg.maxCalls - 1)
  {
    DepthUpTo(cfg, schedule, High);
    if StartsUpTo(schedule, Medium) { DepthUpTo(cfg, schedule, Medium); }
    if StartsUpTo(schedule, Low) { DepthUpTo(cfg, schedule, Low); }
  }
}
