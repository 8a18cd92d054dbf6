/** Any number of threads updating one packed word: load, compute, compare-and-swap, retry.
    Every completed update takes effect exactly once, at one point of its execution. */
module BreakerConcurrent {
  import opened Breaker

  /** An update under way: its event and the word it last read. */
  datatype Call = Call(event: Event, observed: nat)

  /** An entry of the history: which update took effect, and with what event. */
  datatype Entry = Entry(id: nat, event: Event)

  /** `calls` holds the updates under way and `done` the completed ones, by the number each got when it
      began. `log` and `begun` are history: the order in which updates took effect, and the event of each. */
  datatype System = System(cooldown: nat, word: nat, calls: map<nat, Call>, done: set<nat>, log: seq<Entry>,
                           begun: seq<Event>)

  datatype Action =
    | Begin(event: Event)
    | Attempt(id: nat, spurious: bool)

  /** The word an update wants to store, from the word it read. */
  function Desired(c: nat, observed: nat, e: Event): nat
    requires Unpackable(observed)
  {
    Pack(Next(c, Unpack(observed), e))
  }

  /** Reading the word. An update that finds nothing to change takes effect here. */
  function Reads(s: System, id: nat, e: Event): System
    requires Unpackable(s.word)
  {
    s.(calls := s.calls[id := Call(e, s.word)],
       log := if Desired(s.cooldown, s.word, e) == s.word then s.log + [Entry(id, e)] else s.log)
  }

  function Finish(s: System, id: nat): System { s.(calls := s.calls - {id}, done := s.done + {id}) }

  /** The state after a compare-and-swap that succeeds. */
  function Swapped(s: System, id: nat): System
    requires Words(s) && id in s.calls
  {
    var call := s.calls[id];
    var desired := Desired(s.cooldown, call.observed, call.event);
    Finish(s.(word := desired, log := s.log + [Entry(id, call.event)]), id)
  }

  predicate Enabled(s: System, a: Action) { a.Attempt? ==> a.id in s.calls }

  /** One atomic step of one thread: the first load of a new update, or one turn of the retry loop. */
  function Step(s: System, a: Action): System
    requires Enabled(s, a) && Words(s)
  {
    match a
    case Begin(e) => Reads(s.(begun := s.begun + [e]), |s.begun|, e)
    case Attempt(id, spurious) =>
      var call := s.calls[id];
      var desired := Desired(s.cooldown, call.observed, call.event);
      if desired == call.observed then Finish(s, id)
      else if s.word == call.observed && !spurious then Swapped(s, id)
      else if s.word == call.observed then s
      else Reads(s, id, call.event)
  }

  /** Every word read or stored has one of the five levels. */
  predicate Words(s: System) {
    Unpackable(s.word) && forall id :: id in s.calls ==> Unpackable(s.calls[id].observed)
  }

  // ---------------------------------------------------------------- the history

  /** The state the history leads to, in the pure machine. */
  function Replay(c: nat, log: seq<Entry>): State {
    if log == [] then INITIAL else Next(c, Replay(c, log[..|log| - 1]), log[|log| - 1].event)
  }

  /** How often an update took effect. */
  function Times(log: seq<Entry>, id: nat): nat {
    if log == [] then 0 else Times(log[..|log| - 1], id) + if log[|log| - 1].id == id then 1 else 0
  }

  /** An update under way has taken effect iff what it read needs no change. */
  predicate Effective(s: System, id: nat)
    requires Words(s) && id in s.calls
  {
    Desired(s.cooldown, s.calls[id].observed, s.calls[id].event) == s.calls[id].observed
  }

  function Expected(s: System, id: nat): nat
    requires Words(s)
  {
    if id in s.done || (id in s.calls && Effective(s, id)) then 1 else 0
  }

  ghost predicate Once(s: System)
    requires Words(s)
  {
    forall id: nat :: Times(s.log, id) == Expected(s, id)
  }

  predicate Numbered(s: System) {
    && (forall id :: id in s.calls ==> id < |s.begun| && id !in s.done && s.calls[id].event == s.begun[id])
    && (forall id :: id in s.done ==> id < |s.begun|)
  }

  /** Every entry carries the event its update began with. */
  predicate OwnEvents(s: System) {
    forall k :: 0 <= k < |s.log| ==> s.log[k].id < |s.begun| && s.log[k].event == s.begun[s.log[k].id]
  }

  ghost predicate Inv(s: System) {
    && s.cooldown <= COOLDOWN_MAX && Words(s) && Numbered(s) && OwnEvents(s)
    && InRange(Replay(s.cooldown, s.log)) && s.word == Pack(Replay(s.cooldown, s.log))
    && Once(s)
  }

  lemma TimesMore(log: seq<Entry>, entry: Entry, id: nat)
    ensures Times(log + [entry], id) == Times(log, id) + if entry.id == id then 1 else 0
  {
    assert (log + [entry])[..|log|] == log;
  }

  lemma ReplayMore(c: nat, log: seq<Entry>, entry: Entry)
    ensures Replay(c, log + [entry]) == Next(c, Replay(c, log), entry.event)
  {
    assert (log + [entry])[..|log|] == log;
  }

  /** A word that is the packed state of the history is read back as that state. */
  lemma WordIsReplay(s: System)
    requires Inv(s)
    ensures Unpack(s.word) == Replay(s.cooldown, s.log)
  {
    PackIsUnpackable(Replay(s.cooldown, s.log));
  }

  /** An entry logged when the word becomes what it wants keeps word and history together. */
  lemma LogKeepsWord(s: System, id: nat, e: Event)
    requires Inv(s)
    ensures var r := Replay(s.cooldown, s.log + [Entry(id, e)]);
            InRange(r) && Pack(r) == Desired(s.cooldown, s.word, e) && Unpackable(Desired(s.cooldown, s.word, e))
  {
    WordIsReplay(s);
    ReplayMore(s.cooldown, s.log, Entry(id, e));
    NextInRange(s.cooldown, Replay(s.cooldown, s.log), e);
    PackIsUnpackable(Next(s.cooldown, Replay(s.cooldown, s.log), e));
  }

  lemma ReadsWords(s: System, id: nat, e: Event)
    requires Words(s)
    ensures Words(Reads(s, id, e))
  {
  }

  /** For the reader itself the log grows exactly when there is nothing to change; for others nothing changes. */
  lemma ReadsTimes(s: System, id: nat, e: Event, k: nat)
    requires Words(s) && id !in s.done && Words(Reads(s, id, e))
    requires id in s.calls ==> !Effective(s, id)
    requires Times(s.log, k) == Expected(s, k)
    ensures Times(Reads(s, id, e).log, k) == Expected(Reads(s, id, e), k)
  {
    TimesMore(s.log, Entry(id, e), k);
  }

  lemma ReadsOnce(s: System, id: nat, e: Event)
    requires Words(s) && Once(s) && id !in s.done && (id in s.calls ==> !Effective(s, id))
    ensures Words(Reads(s, id, e)) && Once(Reads(s, id, e))
  {
    ReadsWords(s, id, e);
    forall k: nat ensures Times(Reads(s, id, e).log, k) == Expected(Reads(s, id, e), k) {
      ReadsTimes(s, id, e, k);
    }
  }

  lemma ReadsHistory(s: System, id: nat, e: Event)
    requires Inv(s) && id < |s.begun| && s.begun[id] == e
    ensures var t := Reads(s, id, e);
            OwnEvents(t) && InRange(Replay(t.cooldown, t.log)) && t.word == Pack(Replay(t.cooldown, t.log))
  {
    LogKeepsWord(s, id, e);
  }

  lemma ReadsKeeps(s: System, id: nat, e: Event)
    requires Inv(s) && id !in s.done && id < |s.begun| && s.begun[id] == e
    requires id in s.calls ==> !Effective(s, id)
    ensures Inv(Reads(s, id, e))
  {
    ReadsOnce(s, id, e);
    ReadsHistory(s, id, e);
  }

  lemma BeginKeeps(s: System, e: Event)
    requires Inv(s)
    ensures Inv(Step(s, Begin(e)))
  {
    var t := s.(begun := s.begun + [e]);
    assert forall id: nat :: Expected(t, id) == Expected(s, id);
    ReadsKeeps(t, |s.begun|, e);
  }

  lemma SwapWords(s: System, id: nat)
    requires Inv(s) && id in s.calls && s.word == s.calls[id].observed
    ensures var t := Swapped(s, id);
            Words(t) && InRange(Replay(t.cooldown, t.log)) && t.word == Pack(Replay(t.cooldown, t.log))
  {
    LogKeepsWord(s, id, s.calls[id].event);
  }

  lemma SwapTimes(s: System, id: nat, k: nat)
    requires Words(s) && id in s.calls && !Effective(s, id) && id !in s.done && Words(Swapped(s, id))
    requires Times(s.log, k) == Expected(s, k)
    ensures Times(Swapped(s, id).log, k) == Expected(Swapped(s, id), k)
  {
    TimesMore(s.log, Entry(id, s.calls[id].event), k);
  }

  lemma SwapOnce(s: System, id: nat)
    requires Words(s) && Once(s) && id in s.calls && !Effective(s, id) && id !in s.done && Words(Swapped(s, id))
    ensures Once(Swapped(s, id))
  {
    forall k: nat ensures Times(Swapped(s, id).log, k) == Expected(Swapped(s, id), k) {
      SwapTimes(s, id, k);
    }
  }

  lemma SwapNumbers(s: System, id: nat)
    requires Words(s) && Numbered(s) && OwnEvents(s) && id in s.calls
    ensures Numbered(Swapped(s, id)) && OwnEvents(Swapped(s, id))
  {
  }

  /** The compare-and-swap succeeds: word and history move on together. */
  lemma SwapKeeps(s: System, id: nat)
    requires Inv(s) && id in s.calls && s.word == s.calls[id].observed && !Effective(s, id)
    ensures Inv(Step(s, Attempt(id, false)))
  {
    SwapWords(s, id);
    SwapOnce(s, id);
    SwapNumbers(s, id);
    assert Step(s, Attempt(id, false)) == Swapped(s, id);
  }

  /** The shortcut: the update took effect when it read the word. */
  lemma ShortcutKeeps(s: System, id: nat, spurious: bool)
    requires Inv(s) && id in s.calls && Effective(s, id)
    ensures Inv(Step(s, Attempt(id, spurious)))
  {
    var t := Step(s, Attempt(id, spurious));
    assert forall k: nat :: Expected(t, k) == Expected(s, k);
  }

  lemma StepKeeps(s: System, a: Action)
    requires Inv(s) && Enabled(s, a)
    ensures Inv(Step(s, a)) && s.log <= Step(s, a).log && s.cooldown == Step(s, a).cooldown
  {
    match a
    case Begin(e) => BeginKeeps(s, e);
    case Attempt(id, spurious) =>
      if Effective(s, id) {
        ShortcutKeeps(s, id, spurious);
      } else if s.word == s.calls[id].observed {
        if !spurious {
          SwapKeeps(s, id);
        }
      } else {
        ReadsKeeps(s, id, s.calls[id].event);
      }
  }

  // ---------------------------------------------------------------- runs

  function Start(cooldown: nat): System { System(cooldown, Pack(INITIAL), map[], {}, [], []) }

  lemma StartInv(cooldown: nat)
    requires cooldown <= COOLDOWN_MAX
    ensures Inv(Start(cooldown))
  {
    PackIsUnpackable(INITIAL);
  }

  /** The state after the actions; an action that is not possible is skipped. */
  ghost function Run(s: System, actions: seq<Action>): (t: System)
    requires Inv(s)
    ensures Inv(t) && s.log <= t.log && t.cooldown == s.cooldown
    decreases |actions|
  {
    if actions == [] then s
    else if !Enabled(s, actions[0]) then Run(s, actions[1..])
    else
      StepKeeps(s, actions[0]);
      Run(Step(s, actions[0]), actions[1..])
  }

  /** In every interleaving, with any spurious failures: the word is the packed state that the pure machine
      reaches on the logged events, each completed update is logged exactly once, and no update twice. */
  lemma EveryUpdateOnce(cooldown: nat, actions: seq<Action>)
    requires cooldown <= COOLDOWN_MAX
    ensures Inv(Start(cooldown))
    ensures var t := Run(Start(cooldown), actions);
            && t.word == Pack(Replay(cooldown, t.log))
            && Unpackable(t.word) && Unpack(t.word) == Replay(cooldown, t.log)
            && (forall id :: id in t.done ==> Times(t.log, id) == 1)
            && (forall id: nat :: Times(t.log, id) <= 1)
            && OwnEvents(t)
  {
    StartInv(cooldown);
    WordIsReplay(Run(Start(cooldown), actions));
  }

  /** The log respects real time: an update completed before another began comes first. */
  lemma EarlierUpdatesFirst(s: System, actions: seq<Action>, a: nat, b: nat)
    requires Inv(s) && a in s.done && b >= |s.begun|
    ensures s.log <= Run(s, actions).log
    ensures Times(s.log, a) == 1 && Times(s.log, b) == 0
  {
    assert Expected(s, b) == 0;
    assert Expected(s, a) == 1;
  }
}
