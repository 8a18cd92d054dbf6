/** When the breaker changes its level, told from the events alone: a second breaker that only remembers the events
    since it entered its level, and decides by counting them. The one with saturating counters always agrees with it. */
module BreakerHistory {
  import opened Options
  import opened Breaker
  import opened BreakerRecovery

  // ---------------------------------------------------------------- counting events

  /** How often `e` occurred after the last qualifying call. */
  function SinceOk(events: seq<Event>, e: Event): nat {
    if events == [] then 0
    else
      var before, last := events[..|events| - 1], events[|events| - 1];
      if last == RtcOk then 0 else SinceOk(before, e) + if last == e then 1 else 0
  }

  /** How many of the last samples are all above 80 percent. */
  function HighRun(samples: seq<nat>): nat {
    if samples == [] || samples[|samples| - 1] <= 80 then 0 else 1 + HighRun(samples[..|samples| - 1])
  }

  /** A dispatch cycle with the cooldown over. */
  ghost predicate Ripe(cooldown: nat, events: seq<Event>, i: nat) {
    i < |events| && events[i] == DispatchCycle && Count(events[..i + 1], DispatchCycle) >= cooldown
  }

  ghost predicate NoneRipe(cooldown: nat, events: seq<Event>, i: nat) {
    forall k :: i < k < |events| ==> !Ripe(cooldown, events, k)
  }

  /** A probe has succeeded since the last ripe cycle. */
  ghost predicate Probed(cooldown: nat, events: seq<Event>) {
    exists i :: 0 <= i < |events| && events[i] == ProbeSuccess && NoneRipe(cooldown, events, i)
  }

  /** The healthy windows: ripe cycles, each with a successful probe since the one before. */
  ghost function Windows(cooldown: nat, events: seq<Event>): nat {
    if events == [] then 0
    else
      var n := |events| - 1;
      Windows(cooldown, events[..n]) + if Ripe(cooldown, events, n) && Probed(cooldown, events[..n]) then 1 else 0
  }

  // ---------------------------------------------------------------- the levels

  /** A level, the cooldown it was entered with, and the events since. */
  datatype Stay = Stay(level: Level, cooldown: nat, events: seq<Event>)

  /** What the events of a stay add up to: timeouts since the last qualifying call, samples in a row, what is left of
      the cooldown, healthy windows, and whether a probe is waiting for the next one. */
  datatype Counts = Counts(direct: nat, rtc: nat, high: nat, low: nat, left: nat, windows: nat, probed: bool)

  function CooldownLeft(v: Stay): nat {
    var cycles := Count(v.events, DispatchCycle);
    if cycles < v.cooldown then v.cooldown - cycles else 0
  }

  ghost function CountsOf(v: Stay): Counts {
    Counts(SinceOk(v.events, DirectTimeout), SinceOk(v.events, RtcTimeout), HighRun(Samples(v.events)),
           LowRun(Samples(v.events)), CooldownLeft(v), Windows(v.cooldown, v.events), Probed(v.cooldown, v.events))
  }

  /** The level entered with event `e`, if any; the event itself is counted. */
  function Exit(level: Level, k: Counts, e: Event): Option<Level> {
    match level
    case Normal =>
      if e == KeyReserveExhausted then Some(Safe)
      else if e == Overflow || (e == RtcTimeout && k.rtc >= 3) || (e.Watermark? && k.high >= 3) then Some(BrokenL2)
      else if e == DirectTimeout && k.direct >= 3 then Some(BrokenL1)
      else None
    case BrokenL1 =>
      if e == KeyReserveExhausted then Some(Safe)
      else if e == Overflow || (e == RtcTimeout && k.rtc >= 3) || (e.Watermark? && k.high >= 3) then Some(BrokenL2)
      else if e.Watermark? && k.low >= 3 && k.left == 0 then Some(Recovering)
      else None
    case BrokenL2 =>
      if e == KeyReserveExhausted then Some(Safe)
      else if e.Watermark? && k.low >= 3 && k.left == 0 then Some(Recovering)
      else None
    case Safe => if e == ExternalSafeRestore then Some(Recovering) else None
    case Recovering =>
      if e == KeyReserveExhausted then Some(Safe)
      else if || e == DirectTimeout || e == RtcTimeout || e == Overflow || e == ProbeFailure
              || (e.Watermark? && e.percent >= 50) then Some(BrokenL2)
      else if e == DispatchCycle && k.windows >= 3 then Some(Normal)
      else None
  }

  /** A broken or safe level is entered with a full cooldown; recovery goes on with what is left of it. */
  function Entered(c: nat, level: Level, left: nat): Stay {
    Stay(level, match level case Recovering => left case Normal => 0 case _ => c, [])
  }

  ghost function Lived(c: nat, v: Stay, e: Event): Stay {
    var now := v.(events := v.events + [e]);
    match Exit(v.level, CountsOf(now), e)
    case None => now
    case Some(level) => Entered(c, level, CooldownLeft(now))
  }

  ghost function History(c: nat, v: Stay, events: seq<Event>): Stay
    decreases |events|
  {
    if events == [] then v else History(c, Lived(c, v, events[0]), events[1..])
  }

  const BEGINNING := Stay(Normal, 0, [])

  // ---------------------------------------------------------------- one event more

  lemma SinceOkMore(events: seq<Event>, e: Event, f: Event)
    ensures SinceOk(events + [e], f) == if e == RtcOk then 0 else SinceOk(events, f) + if e == f then 1 else 0
  {
    assert (events + [e])[..|events|] == events;
  }

  lemma HighRunMore(samples: seq<nat>, x: nat)
    ensures HighRun(samples + [x]) == if x > 80 then 1 + HighRun(samples) else 0
  {
    assert (samples + [x])[..|samples|] == samples;
  }

  lemma RipeMore(cooldown: nat, events: seq<Event>, e: Event, i: nat)
    requires i < |events|
    ensures Ripe(cooldown, events + [e], i) <==> Ripe(cooldown, events, i)
  {
    assert (events + [e])[..i + 1] == events[..i + 1];
  }

  lemma ProbedMore(cooldown: nat, events: seq<Event>, e: Event)
    ensures Probed(cooldown, events + [e])
       <==> e == ProbeSuccess || (Probed(cooldown, events) && !Ripe(cooldown, events + [e], |events|))
  {
    var more := events + [e];
    forall i | 0 <= i < |events| ensures Ripe(cooldown, more, i) <==> Ripe(cooldown, events, i) {
      RipeMore(cooldown, events, e, i);
    }
    if e == ProbeSuccess {
      assert more[|events|] == ProbeSuccess;
    } else if Probed(cooldown, events) && !Ripe(cooldown, more, |events|) {
      var i :| 0 <= i < |events| && events[i] == ProbeSuccess && NoneRipe(cooldown, events, i);
      assert more[i] == ProbeSuccess;
    }
  }

  lemma WindowsMore(cooldown: nat, events: seq<Event>, e: Event)
    ensures Windows(cooldown, events + [e]) == Windows(cooldown, events)
          + if Ripe(cooldown, events + [e], |events|) && Probed(cooldown, events) then 1 else 0
  {
    assert (events + [e])[..|events|] == events;
  }

  lemma CooldownMore(v: Stay, e: Event)
    ensures var left := CooldownLeft(v);
            CooldownLeft(v.(events := v.events + [e])) == if e == DispatchCycle && left > 0 then left - 1 else left
  {
    CountMore(v.events, e, DispatchCycle);
  }

  lemma SamplesRun(events: seq<Event>, e: Event)
    ensures var samples, more := Samples(events), Samples(events + [e]);
            if e.Watermark? then
              && HighRun(more) == (if e.percent > 80 then 1 + HighRun(samples) else 0)
              && LowRun(more) == (if e.percent < 50 then 1 + LowRun(samples) else 0)
            else more == samples
  {
    SamplesMore(events, e);
    if e.Watermark? {
      HighRunMore(Samples(events), e.percent);
      LowRunMore(Samples(events), e.percent);
    }
  }

  lemma LastIsRipe(v: Stay, e: Event)
    ensures Ripe(v.cooldown, v.events + [e], |v.events|)
       <==> e == DispatchCycle && CooldownLeft(v.(events := v.events + [e])) == 0
  {
    assert (v.events + [e])[..|v.events| + 1] == v.events + [e];
    CountMore(v.events, e, DispatchCycle);
  }

  /** The counts after one event more. */
  function Counted(k: Counts, e: Event): Counts {
    match e
    case DirectTimeout => k.(direct := k.direct + 1)
    case RtcTimeout => k.(rtc := k.rtc + 1)
    case Watermark(percent) =>
      k.(high := if percent > 80 then 1 + k.high else 0, low := if percent < 50 then 1 + k.low else 0)
    case DispatchCycle =>
      if k.left > 1 then k.(left := k.left - 1)
      else k.(left := 0, windows := k.windows + (if k.probed then 1 else 0), probed := false)
    case ProbeSuccess => k.(probed := true)
    case RtcOk => k.(direct := 0, rtc := 0)
    case _ => k
  }

  lemma CountsMore(v: Stay, e: Event)
    ensures CountsOf(v.(events := v.events + [e])) == Counted(CountsOf(v), e)
  {
    SinceOkMore(v.events, e, DirectTimeout);
    SinceOkMore(v.events, e, RtcTimeout);
    SamplesRun(v.events, e);
    CooldownMore(v, e);
    LastIsRipe(v, e);
    ProbedMore(v.cooldown, v.events, e);
    WindowsMore(v.cooldown, v.events, e);
  }

  lemma CountsOfNone(v: Stay)
    requires v.events == []
    ensures CountsOf(v) == Counts(0, 0, 0, 0, v.cooldown, 0, false)
  {
  }

  // ---------------------------------------------------------------- the counters and the counts

  function Saturated(n: nat): nat { if n < 3 then n else 3 }

  /** The counters that matter in a level stand for the events since it was entered. */
  predicate Stands(s: State, k: Counts) {
    && (s.level != Normal ==> s.cooldown == k.left)
    && match s.level
       case Normal => s.direct == k.direct < 3 && s.rtc == k.rtc < 3 && s.high == k.high < 3
       case BrokenL1 => s.rtc == k.rtc < 3 && s.high == k.high < 3 && s.low == Saturated(k.low)
       case BrokenL2 => s.low == Saturated(k.low)
       case Safe => true
       case Recovering =>
         s.direct == s.rtc == s.high == 0 && s.healthy == k.windows < 3 && s.probe == k.probed
  }

  /** `t` is where the counts lead from `s`. */
  predicate Follows(c: nat, s: State, k: Counts, e: Event, t: State) {
    match Exit(s.level, Counted(k, e), e)
    case None => t.level == s.level && Stands(t, Counted(k, e))
    case Some(level) =>
      t.level == level && Stands(t, Counts(0, 0, 0, 0, Entered(c, level, Counted(k, e).left).cooldown, 0, false))
  }

  lemma DirectStands(c: nat, s: State, k: Counts)
    requires Stands(s, k)
    ensures Follows(c, s, k, DirectTimeout, OnDirectTimeout(c, s))
  {
  }

  lemma RtcStands(c: nat, s: State, k: Counts)
    requires Stands(s, k)
    ensures Follows(c, s, k, RtcTimeout, OnRtcTimeout(c, s))
  {
  }

  lemma SampleStands(c: nat, s: State, k: Counts, percent: nat)
    requires Stands(s, k)
    ensures Follows(c, s, k, Watermark(percent), OnWatermark(c, s, percent))
  {
  }

  lemma CycleStands(c: nat, s: State, k: Counts)
    requires Stands(s, k)
    ensures Follows(c, s, k, DispatchCycle, OnDispatchCycle(s))
  {
  }

  lemma OtherStands(c: nat, s: State, k: Counts, e: Event)
    requires Stands(s, k) && e != DirectTimeout && e != RtcTimeout && !e.Watermark? && e != DispatchCycle
    ensures Follows(c, s, k, e, Next(c, s, e))
  {
  }

  /** Event by event the counters do what the counts do. */
  lemma NextStands(c: nat, s: State, k: Counts, e: Event)
    requires Stands(s, k)
    ensures Follows(c, s, k, e, Next(c, s, e))
  {
    match e
    case DirectTimeout => DirectStands(c, s, k);
    case RtcTimeout => RtcStands(c, s, k);
    case Watermark(percent) => SampleStands(c, s, k, percent);
    case DispatchCycle => CycleStands(c, s, k);
    case _ => OtherStands(c, s, k, e);
  }

  lemma Agrees(c: nat, s: State, v: Stay, e: Event)
    requires s.level == v.level && Stands(s, CountsOf(v))
    ensures Next(c, s, e).level == Lived(c, v, e).level && Stands(Next(c, s, e), CountsOf(Lived(c, v, e)))
  {
    CountsMore(v, e);
    NextStands(c, s, CountsOf(v), e);
    if Lived(c, v, e).events == [] {
      CountsOfNone(Lived(c, v, e));
    }
  }

  // ---------------------------------------------------------------- every history

  lemma {:induction false} RunAgrees(c: nat, s: State, v: Stay, events: seq<Event>)
    requires s.level == v.level && Stands(s, CountsOf(v))
    ensures var t, u := Run(c, s, events), History(c, v, events); t.level == u.level && Stands(t, CountsOf(u))
    decreases |events|
  {
    if events != [] {
      Agrees(c, s, v, events[0]);
      RunAgrees(c, Next(c, s, events[0]), Lived(c, v, events[0]), events[1..]);
    }
  }

  /** After any events the breaker is in the level that counting the events says, with the cooldown that is left there;
      in Recovering it also has the healthy windows that the events make up. */
  lemma LevelIsHistory(c: nat, events: seq<Event>)
    ensures var s, v := Run(c, INITIAL, events), History(c, BEGINNING, events);
            && s.level == v.level && (s.level != Normal ==> s.cooldown == CooldownLeft(v))
            && (s.level == Recovering ==> s.healthy == Windows(v.cooldown, v.events))
  {
    CountsOfNone(BEGINNING);
    RunAgrees(c, INITIAL, BEGINNING, events);
  }

  lemma {:induction false} HistoryMore(c: nat, v: Stay, events: seq<Event>, e: Event)
    ensures History(c, v, events + [e]) == Lived(c, History(c, v, events), e)
    decreases |events|
  {
    if events == [] {
      assert [e][1..] == [];
      assert History(c, Lived(c, v, e), []) == Lived(c, v, e);
    } else {
      assert (events + [e])[1..] == events[1..] + [e];
      HistoryMore(c, Lived(c, v, events[0]), events[1..], e);
    }
  }

  /** The breaker has not left Normal yet. */
  ghost predicate NormalSoFar(c: nat, events: seq<Event>) {
    forall n :: 0 <= n <= |events| ==> Run(c, INITIAL, events[..n]).level == Normal
  }

  lemma {:induction false} NormalHistory(c: nat, events: seq<Event>)
    requires NormalSoFar(c, events)
    ensures History(c, BEGINNING, events) == Stay(Normal, 0, events)
    decreases |events|
  {
    if events != [] {
      var before, e := events[..|events| - 1], events[|events| - 1];
      assert events == before + [e] && events[..|events|] == events;
      forall n | 0 <= n <= |before| ensures Run(c, INITIAL, before[..n]).level == Normal {
        assert before[..n] == events[..n];
      }
      NormalHistory(c, before);
      HistoryMore(c, BEGINNING, before, e);
      LevelIsHistory(c, events);
    }
  }

  /** When a breaker trips for the first time, and to which level: at a third timeout since the last qualifying call, at
      a third sample in a row above 80 percent, at an overflow, or when the reserve is exhausted; at nothing else. */
  lemma FirstTrip(c: nat, events: seq<Event>, e: Event)
    requires NormalSoFar(c, events)
    ensures Run(c, INITIAL, events + [e]).level ==
            if e == KeyReserveExhausted then Safe
            else if || e == Overflow
                    || (e == RtcTimeout && SinceOk(events, RtcTimeout) >= 2)
                    || (e.Watermark? && e.percent > 80 && HighRun(Samples(events)) >= 2) then BrokenL2
            else if e == DirectTimeout && SinceOk(events, DirectTimeout) >= 2 then BrokenL1
            else Normal
  {
    NormalHistory(c, events);
    HistoryMore(c, BEGINNING, events, e);
    LevelIsHistory(c, events + [e]);
    CountsMore(Stay(Normal, 0, events), e);
    CountsOfNone(BEGINNING);
    RunAgrees(c, INITIAL, BEGINNING, events);
  }
}
