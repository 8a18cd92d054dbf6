/** How much it takes to recover: the least an event sequence must hold between the last entry
    into a broken or safe level and the next normal one. */
module BreakerRecovery {
  import opened Breaker

  // ---------------------------------------------------------------- counting events

  function Count(events: seq<Event>, e: Event): nat {
    if events == [] then 0 else Count(events[1..], e) + if events[0] == e then 1 else 0
  }

  /** The watermark samples among the events. */
  function Samples(events: seq<Event>): seq<nat> {
    if events == [] then []
    else if events[0].Watermark? then [events[0].percent] + Samples(events[1..])
    else Samples(events[1..])
  }

  /** Three consecutive samples below the low watermark. */
  ghost predicate ThreeLows(samples: seq<nat>) {
    exists i :: 0 <= i <= |samples| - 3 && samples[i] < 50 && samples[i + 1] < 50 && samples[i + 2] < 50
  }

  /** An event takes the breaker into a broken or safe level. */
  predicate Enters(c: nat, s: State, e: Event) {
    var t := Next(c, s, e);
    t.level != s.level && (t.level == BrokenL1 || t.level == BrokenL2 || t.level == Safe)
  }

  predicate NoEntry(c: nat, s: State, events: seq<Event>)
    decreases |events|
  {
    events == [] || (!Enters(c, s, events[0]) && NoEntry(c, Next(c, s, events[0]), events[1..]))
  }

  /** What entering leaves: a full cooldown and cleared metrics. */
  lemma EntryState(c: nat, s: State, e: Event)
    requires Enters(c, s, e)
    ensures Next(c, s, e) == Enter(Next(c, s, e).level, c)
  {
  }

  // ---------------------------------------------------------------- what is still missing

  /** How many consecutive low samples end a sequence of samples. */
  function LowRun(samples: seq<nat>): nat {
    if samples == [] || samples[|samples| - 1] >= 50 then 0
    else 1 + LowRun(samples[..|samples| - 1])
  }

  /** What a sequence of events holds, as far as recovery is concerned. */
  datatype Tally = Tally(cycles: nat, probes: nat, restores: nat, lowRun: nat, threeLows: bool)

  function Observe(t: Tally, e: Event): Tally {
    match e
    case DispatchCycle => t.(cycles := t.cycles + 1)
    case ProbeSuccess => t.(probes := t.probes + 1)
    case ExternalSafeRestore => t.(restores := t.restores + 1)
    case Watermark(percent) =>
      var run := if percent < LOW_WATERMARK_PCT then 1 + t.lowRun else 0;
      t.(lowRun := run, threeLows := t.threeLows || run >= LOW_WATERMARK_PERSIST)
    case _ => t
  }

  /** What is known after some events since the entry into a broken level. */
  predicate SinceBroken(c: nat, s: State, t: Tally) {
    match s.level
    case BrokenL1 => s.cooldown + t.cycles >= c && s.low <= t.lowRun
    case BrokenL2 => s.cooldown + t.cycles >= c && s.low <= t.lowRun
    case Safe => false
    case Recovering =>
      && s.cooldown == 0 && t.threeLows && s.healthy < HEALTHY_WINDOWS_REQUIRED
      && t.cycles >= c + s.healthy && t.probes >= s.healthy + Bit(s.probe)
    case Normal => t.threeLows && t.cycles >= c + 3 && t.probes >= 3
  }

  /** What is known after some events since the entry into the safe level. */
  predicate SinceSafe(c: nat, s: State, t: Tally) {
    match s.level
    case Safe => s.cooldown + t.cycles >= c
    case Recovering =>
      && t.restores >= 1 && s.healthy < HEALTHY_WINDOWS_REQUIRED
      && s.cooldown + t.cycles >= c + (if s.healthy == 0 then 0 else s.healthy - 1)
      && (s.healthy > 0 ==> s.cooldown == 0 && t.cycles >= s.healthy)
      && t.probes >= s.healthy + Bit(s.probe)
    case Normal => t.restores >= 1 && t.cycles >= (if c > 1 then c else 1) + 2 && t.probes >= 3
    case _ => false
  }

  lemma BrokenSample(c: nat, s: State, t: Tally, percent: nat)
    requires SinceBroken(c, s, t) && !Enters(c, s, Watermark(percent))
    ensures SinceBroken(c, OnWatermark(c, s, percent), Observe(t, Watermark(percent)))
  {
  }

  lemma BrokenCycle(c: nat, s: State, t: Tally)
    requires SinceBroken(c, s, t) && !Enters(c, s, DispatchCycle)
    ensures SinceBroken(c, OnDispatchCycle(s), Observe(t, DispatchCycle))
  {
  }

  lemma BrokenStep(c: nat, s: State, t: Tally, e: Event)
    requires SinceBroken(c, s, t) && !Enters(c, s, e)
    ensures SinceBroken(c, Next(c, s, e), Observe(t, e))
  {
    match e
    case Watermark(percent) => BrokenSample(c, s, t, percent);
    case DispatchCycle => BrokenCycle(c, s, t);
    case _ =>
  }

  lemma SafeSample(c: nat, s: State, t: Tally, percent: nat)
    requires SinceSafe(c, s, t) && !Enters(c, s, Watermark(percent))
    ensures SinceSafe(c, OnWatermark(c, s, percent), Observe(t, Watermark(percent)))
  {
  }

  lemma SafeCycle(c: nat, s: State, t: Tally)
    requires SinceSafe(c, s, t) && !Enters(c, s, DispatchCycle)
    ensures SinceSafe(c, OnDispatchCycle(s), Observe(t, DispatchCycle))
  {
  }

  lemma SafeStep(c: nat, s: State, t: Tally, e: Event)
    requires SinceSafe(c, s, t) && !Enters(c, s, e)
    ensures SinceSafe(c, Next(c, s, e), Observe(t, e))
  {
    match e
    case Watermark(percent) => SafeSample(c, s, t, percent);
    case DispatchCycle => SafeCycle(c, s, t);
    case _ =>
  }

  // ---------------------------------------------------------------- the tally counts the events

  lemma {:induction false} CountMore(past: seq<Event>, e: Event, f: Event)
    ensures Count(past + [e], f) == Count(past, f) + if e == f then 1 else 0
  {
    if past == [] {
      assert past + [e] == [e] && [e][1..] == [];
    } else {
      assert (past + [e])[1..] == past[1..] + [e];
      CountMore(past[1..], e, f);
    }
  }

  lemma {:induction false} SamplesMore(past: seq<Event>, e: Event)
    ensures Samples(past + [e]) == Samples(past) + if e.Watermark? then [e.percent] else []
  {
    if past == [] {
      assert past + [e] == [e] && [e][1..] == [];
    } else {
      assert (past + [e])[1..] == past[1..] + [e];
      SamplesMore(past[1..], e);
    }
  }

  lemma ThreeLowsStay(samples: seq<nat>, more: seq<nat>)
    requires ThreeLows(samples)
    ensures ThreeLows(samples + more)
  {
    var i :| 0 <= i <= |samples| - 3 && samples[i] < LOW_WATERMARK_PCT && samples[i + 1] < LOW_WATERMARK_PCT
          && samples[i + 2] < LOW_WATERMARK_PCT;
    var all := samples + more;
    assert all[i] == samples[i] && all[i + 1] == samples[i + 1] && all[i + 2] == samples[i + 2];
  }

  lemma LowRunMore(samples: seq<nat>, percent: nat)
    ensures LowRun(samples + [percent]) == if percent < 50 then 1 + LowRun(samples) else 0
  {
    assert (samples + [percent])[..|samples|] == samples;
  }

  lemma LowRunIsThreeLows(samples: seq<nat>)
    requires LowRun(samples) >= 3
    ensures ThreeLows(samples)
  {
    var n := |samples|;
    var a := samples[..n - 1];
    assert LowRun(a) >= 2;
    var b := a[..|a| - 1];
    assert LowRun(b) >= 1;
    assert samples[n - 3] == b[|b| - 1] && samples[n - 2] == a[|a| - 1];
    assert samples[n - 3 + 1] == samples[n - 2] && samples[n - 3 + 2] == samples[n - 1];
  }

  /** The tally says no more than the events do. */
  ghost predicate Counts(t: Tally, past: seq<Event>) {
    && t.cycles == Count(past, DispatchCycle) && t.probes == Count(past, ProbeSuccess)
    && t.restores == Count(past, ExternalSafeRestore) && t.lowRun == LowRun(Samples(past))
    && (t.threeLows ==> ThreeLows(Samples(past)))
  }

  lemma LowsMore(t: Tally, past: seq<Event>, e: Event)
    requires t.lowRun == LowRun(Samples(past)) && (t.threeLows ==> ThreeLows(Samples(past)))
    ensures Observe(t, e).lowRun == LowRun(Samples(past + [e]))
    ensures Observe(t, e).threeLows ==> ThreeLows(Samples(past + [e]))
  {
    SamplesMore(past, e);
    if e.Watermark? {
      if t.threeLows {
        ThreeLowsStay(Samples(past), [e.percent]);
      }
      LowRunMore(Samples(past), e.percent);
      if LowRun(Samples(past + [e])) >= 3 {
        LowRunIsThreeLows(Samples(past + [e]));
      }
    } else {
      assert Samples(past + [e]) == Samples(past);
    }
  }

  lemma CountsMore(t: Tally, past: seq<Event>, e: Event)
    requires Counts(t, past)
    ensures Counts(Observe(t, e), past + [e])
  {
    CountMore(past, e, DispatchCycle);
    CountMore(past, e, ProbeSuccess);
    CountMore(past, e, ExternalSafeRestore);
    LowsMore(t, past, e);
  }

  // ---------------------------------------------------------------- recovery bounds

  const NOTHING := Tally(0, 0, 0, 0, false)

  lemma {:induction false} BrokenRun(c: nat, s: State, t: Tally, past: seq<Event>, events: seq<Event>)
    returns (u: Tally)
    requires SinceBroken(c, s, t) && Counts(t, past) && NoEntry(c, s, events)
    ensures SinceBroken(c, Run(c, s, events), u) && Counts(u, past + events)
    decreases |events|
  {
    if events == [] {
      u := t;
      assert past + events == past;
    } else {
      var e := events[0];
      BrokenStep(c, s, t, e);
      CountsMore(t, past, e);
      u := BrokenRun(c, Next(c, s, e), Observe(t, e), past + [e], events[1..]);
      assert past + [e] + events[1..] == past + events;
    }
  }

  lemma {:induction false} SafeRun(c: nat, s: State, t: Tally, past: seq<Event>, events: seq<Event>) returns (u: Tally)
    requires SinceSafe(c, s, t) && Counts(t, past) && NoEntry(c, s, events)
    ensures SinceSafe(c, Run(c, s, events), u) && Counts(u, past + events)
    decreases |events|
  {
    if events == [] {
      u := t;
      assert past + events == past;
    } else {
      var e := events[0];
      SafeStep(c, s, t, e);
      CountsMore(t, past, e);
      u := SafeRun(c, Next(c, s, e), Observe(t, e), past + [e], events[1..]);
      assert past + [e] + events[1..] == past + events;
    }
  }

  /** From the last entry into a broken level to the next normal one there are at least `c + 3`
      dispatch cycles, three consecutive low samples and three probe successes. */
  lemma RecoveryFromBroken(c: nat, s: State, e: Event, events: seq<Event>)
    requires Enters(c, s, e) && Next(c, s, e).level != Safe
    requires NoEntry(c, Next(c, s, e), events) && Run(c, Next(c, s, e), events).level == Normal
    ensures Count(events, DispatchCycle) >= c + 3
    ensures Count(events, ProbeSuccess) >= 3
    ensures ThreeLows(Samples(events))
  {
    EntryState(c, s, e);
    var u := BrokenRun(c, Next(c, s, e), NOTHING, [], events);
    assert [] + events == events;
  }

  /** From the last entry into the safe level to the next normal one there are an external restore,
      at least `max(c, 1) + 2` dispatch cycles and three probe successes. */
  lemma RecoveryFromSafe(c: nat, s: State, e: Event, events: seq<Event>)
    requires Enters(c, s, e) && Next(c, s, e).level == Safe
    requires NoEntry(c, Next(c, s, e), events) && Run(c, Next(c, s, e), events).level == Normal
    ensures Count(events, ExternalSafeRestore) >= 1
    ensures Count(events, DispatchCycle) >= (if c > 1 then c else 1) + 2
    ensures Count(events, ProbeSuccess) >= 3
  {
    EntryState(c, s, e);
    var u := SafeRun(c, Next(c, s, e), NOTHING, [], events);
    assert [] + events == events;
  }

  // ---------------------------------------------------------------- the bounds are met

  lemma {:induction false} RunJoin(c: nat, s: State, a: seq<Event>, b: seq<Event>)
    ensures Run(c, s, a + b) == Run(c, Run(c, s, a), b)
    ensures NoEntry(c, s, a + b) <==> NoEntry(c, s, a) && NoEntry(c, Run(c, s, a), b)
    decreases |a|
  {
    if a == [] {
      assert a + b == b;
    } else {
      assert (a + b)[1..] == a[1..] + b;
      RunJoin(c, Next(c, s, a[0]), a[1..], b);
    }
  }

  lemma {:induction false} CountJoin(a: seq<Event>, b: seq<Event>, e: Event)
    ensures Count(a + b, e) == Count(a, e) + Count(b, e)
  {
    if a == [] {
      assert a + b == b;
    } else {
      assert (a + b)[1..] == a[1..] + b;
      CountJoin(a[1..], b, e);
    }
  }

  function Cycles(n: nat): (events: seq<Event>)
    ensures |events| == n
  {
    if n == 0 then [] else [DispatchCycle] + Cycles(n - 1)
  }

  /** `n` cycles take `n` off the cooldown. */
  lemma {:induction false} CoolDown(c: nat, level: Level, n: nat, rest: nat)
    requires level == BrokenL1 || level == BrokenL2 || level == Recovering
    ensures Run(c, Enter(level, n + rest), Cycles(n)) == Enter(level, rest)
    ensures NoEntry(c, Enter(level, n + rest), Cycles(n)) && Count(Cycles(n), DispatchCycle) == n
  {
    if n > 0 {
      assert Cycles(n)[1..] == Cycles(n - 1);
      CoolDown(c, level, n - 1, rest);
    }
  }

  lemma TwoEvents(c: nat, s: State, e: Event, f: Event)
    ensures Run(c, s, [e, f]) == Next(c, Next(c, s, e), f)
    ensures NoEntry(c, s, [e, f]) <==> !Enters(c, s, e) && !Enters(c, Next(c, s, e), f)
  {
    assert [e, f][1..] == [f] && [f][1..] == [];
    assert Run(c, Next(c, s, e), [f]) == Next(c, Next(c, s, e), f);
    assert NoEntry(c, Next(c, s, e), [f]) <==> !Enters(c, Next(c, s, e), f);
  }

  const WINDOW := [ProbeSuccess, DispatchCycle]
  const WINDOWS := WINDOW + WINDOW + WINDOW
  const LOWS := [Watermark(0), Watermark(0)] + [Watermark(0), RtcOk]

  /** Three probed windows take a breaker whose cooldown ends with the first of them to normal. */
  lemma WindowsRecover(c: nat, n: nat)
    requires n <= 1
    ensures Run(c, Enter(Recovering, n), WINDOWS).level == Normal && NoEntry(c, Enter(Recovering, n), WINDOWS)
    ensures Count(WINDOWS, DispatchCycle) == 3 && Count(WINDOWS, ProbeSuccess) == 3
  {
    var s := Enter(Recovering, n);
    TwoEvents(c, s, ProbeSuccess, DispatchCycle);
    var t := State(Recovering, 0, 0, 0, 0, 0, 1, false);
    assert Run(c, s, WINDOW) == t;
    TwoEvents(c, t, ProbeSuccess, DispatchCycle);
    var u := State(Recovering, 0, 0, 0, 0, 0, 2, false);
    assert Run(c, t, WINDOW) == u;
    TwoEvents(c, u, ProbeSuccess, DispatchCycle);
    RunJoin(c, s, WINDOW, WINDOW);
    RunJoin(c, s, WINDOW + WINDOW, WINDOW);
    WindowCounts();
  }

  lemma WindowCounts()
    ensures Count(WINDOWS, DispatchCycle) == 3 && Count(WINDOWS, ProbeSuccess) == 3
  {
    assert WINDOW[1..] == [DispatchCycle] && [DispatchCycle][1..] == [];
    assert Count(WINDOW, DispatchCycle) == 1 && Count(WINDOW, ProbeSuccess) == 1;
    CountJoin(WINDOW, WINDOW, DispatchCycle);
    CountJoin(WINDOW, WINDOW, ProbeSuccess);
    CountJoin(WINDOW + WINDOW, WINDOW, DispatchCycle);
    CountJoin(WINDOW + WINDOW, WINDOW, ProbeSuccess);
  }

  lemma FirstEvent(c: nat, s: State, e: Event, rest: seq<Event>)
    ensures Run(c, s, [e] + rest) == Run(c, Next(c, s, e), rest)
    ensures NoEntry(c, s, [e] + rest) <==> !Enters(c, s, e) && NoEntry(c, Next(c, s, e), rest)
    ensures Count([e] + rest, DispatchCycle) == Count(rest, DispatchCycle) + if e == DispatchCycle then 1 else 0
  {
    assert ([e] + rest)[1..] == rest;
  }

  lemma AfterCooldown(c: nat, n: nat, events: seq<Event>)
    requires n <= c
    requires NoEntry(c, Enter(Recovering, n), events) && Run(c, Enter(Recovering, n), events).level == Normal
    ensures var all := Cycles(c - n) + events;
            && NoEntry(c, Enter(Recovering, c), all) && Run(c, Enter(Recovering, c), all).level == Normal
            && Count(all, DispatchCycle) == c - n + Count(events, DispatchCycle)
  {
    CoolDown(c, Recovering, c - n, n);
    RunJoin(c, Enter(Recovering, c), Cycles(c - n), events);
    CountJoin(Cycles(c - n), events, DispatchCycle);
  }

  /** The bound from the safe level is met exactly, for every cooldown. */
  lemma SafeBoundIsTight(c: nat) returns (events: seq<Event>)
    ensures NoEntry(c, Enter(Safe, c), events) && Run(c, Enter(Safe, c), events).level == Normal
    ensures Count(events, DispatchCycle) == (if c > 1 then c else 1) + 2
  {
    var n := if c == 0 then 0 else 1;
    var rest := Cycles(c - n) + WINDOWS;
    WindowsRecover(c, n);
    AfterCooldown(c, n, WINDOWS);
    FirstEvent(c, Enter(Safe, c), ExternalSafeRestore, rest);
    events := [ExternalSafeRestore] + rest;
  }

  lemma LowsRecover(c: nat)
    ensures Run(c, Enter(BrokenL2, 0), LOWS) == Enter(Recovering, 0) && NoEntry(c, Enter(BrokenL2, 0), LOWS)
    ensures Count(LOWS, DispatchCycle) == 0
  {
    var s := Enter(BrokenL2, 0);
    var front, back := [Watermark(0), Watermark(0)], [Watermark(0), RtcOk];
    TwoEvents(c, s, Watermark(0), Watermark(0));
    var t := s.(low := 2);
    assert Run(c, s, front) == t;
    TwoEvents(c, t, Watermark(0), RtcOk);
    RunJoin(c, s, front, back);
    CountJoin(front, back, DispatchCycle);
    assert front[1..] == [Watermark(0)] && [Watermark(0)][1..] == [];
    assert back[1..] == [RtcOk] && [RtcOk][1..] == [];
  }

  /** The bound from a broken level is met exactly, for every cooldown. */
  lemma BrokenBoundIsTight(c: nat) returns (events: seq<Event>)
    ensures NoEntry(c, Enter(BrokenL2, c), events) && Run(c, Enter(BrokenL2, c), events).level == Normal
    ensures Count(events, DispatchCycle) == c + 3
  {
    var wait := Cycles(c);
    events := wait + (LOWS + WINDOWS);
    CoolDown(c, BrokenL2, c, 0);
    RunJoin(c, Enter(BrokenL2, c), wait, LOWS + WINDOWS);
    LowsRecover(c);
    RunJoin(c, Enter(BrokenL2, 0), LOWS, WINDOWS);
    WindowsRecover(c, 0);
    CountJoin(LOWS, WINDOWS, DispatchCycle);
    CountJoin(wait, LOWS + WINDOWS, DispatchCycle);
  }

  // ---------------------------------------------------------------- healthy windows

  /** Reachable states never show a full set of healthy windows outside the normal level. */
  lemma {:induction false} HealthyBelowThree(c: nat, s: State, events: seq<Event>)
    requires s.healthy < HEALTHY_WINDOWS_REQUIRED
    ensures Run(c, s, events).healthy < HEALTHY_WINDOWS_REQUIRED
    decreases |events|
  {
    if events != [] {
      NextHealthy(c, s, events[0]);
      HealthyBelowThree(c, Next(c, s, events[0]), events[1..]);
    }
  }

  predicate Healthy(s: State) {
    s.level == Normal || (s.level == Recovering && s.healthy >= HEALTHY_WINDOWS_REQUIRED)
  }

  /** The healthy window has passed exactly in the normal level, after any events. */
  lemma HealthyWindowIsNormal(c: nat, events: seq<Event>)
    ensures Healthy(Run(c, INITIAL, events)) <==> Run(c, INITIAL, events).level == Normal
  {
    HealthyBelowThree(c, INITIAL, events);
  }
}
