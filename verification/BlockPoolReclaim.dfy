/** Each allocation is reclaimed at most once, by the thread that took its count to
    zero, and the counters follow the free list. */
module BlockPoolReclaim {
  import opened Options
  import opened BlockPool
  import opened BlockPoolSafety
  import opened Debts

  // ---------------------------------------------------------------- history invariant

  ghost predicate Absent(log: seq<Event>, gen: nat) {
    forall i :: 0 <= i < |log| ==> log[i].gen != gen
  }

  /** No incarnation occurs twice. */
  ghost predicate Once(log: seq<Event>) {
    forall i, j :: 0 <= i < j < |log| ==> log[i].gen != log[j].gen
  }

  /** The current incarnation of `b` was not reclaimed. */
  ghost predicate Unreclaimed(s: State, b: nat)
    requires s.WellFormed() && b < s.Size()
  {
    s.incarnation[b] > 0 && Absent(s.zeroed, s.incarnation[b])
  }

  /** Thread `t` took the current incarnation of `b` to zero; it was not pushed yet. */
  ghost predicate Claimed(s: State, b: nat, t: nat)
    requires s.WellFormed() && b < s.Size()
  {
    s.incarnation[b] > 0 && Event(s.incarnation[b], b, t) in s.zeroed && Absent(s.pushed, s.incarnation[b])
  }

  /** Incarnations are tags already used, and no two blocks share one. */
  ghost predicate Incarnations(s: State)
    requires s.WellFormed()
  {
    && (forall b :: 0 <= b < s.Size() ==> s.incarnation[b] <= s.head.tag)
    && (forall b, c :: 0 <= b < c < s.Size() && s.incarnation[b] > 0 ==> s.incarnation[b] != s.incarnation[c])
  }

  ghost predicate Logs(s: State) {
    && Once(s.zeroed) && Once(s.pushed)
    && (forall e :: e in s.pushed ==> e in s.zeroed)
    && (forall e :: e in s.zeroed ==> 0 < e.gen <= s.head.tag)
  }

  ghost predicate Standing(s: State)
    requires s.WellFormed()
  {
    && (forall b :: 0 <= b < s.Size() && s.refs[b] > 0 ==> Unreclaimed(s, b))
    && (forall t :: t in s.threads && Allocating(s.threads[t]) && s.threads[t].b < s.Size() ==>
          Unreclaimed(s, s.threads[t].b))
    && (forall t :: t in s.threads && Recycling(s.threads[t]) && s.threads[t].b < s.Size() ==>
          Claimed(s, s.threads[t].b, t))
  }

  ghost predicate History(s: State) {
    s.WellFormed() && Incarnations(s) && Logs(s) && Standing(s)
  }

  lemma InitHistory(blocks: nat)
    requires blocks > 0
    ensures History(Init(blocks))
  {}

  /** Nothing was logged and no block got a new standing. */
  lemma SameHistory(s: State, s': State, t: nat, next: Option<Op>)
    requires History(s) && t in s.threads
    requires s'.WellFormed() && s'.Size() == s.Size() && s'.head.tag == s.head.tag
    requires s'.incarnation == s.incarnation && s'.zeroed == s.zeroed && s'.pushed == s.pushed
    requires forall b :: 0 <= b < s.Size() && s'.refs[b] > 0 ==>
               s.refs[b] > 0 || (Allocating(s.threads[t]) && s.threads[t].b == b)
    requires s'.threads == s.Go(t, next).threads
    requires next.Some? && Allocating(next.value) ==> Allocating(s.threads[t]) && next.value.b == s.threads[t].b
    requires next.Some? && Recycling(next.value) ==> Recycling(s.threads[t]) && next.value.b == s.threads[t].b
    ensures History(s')
  {}

  lemma StartHistory(s: State, t: nat, op: Op)
    requires History(s) && t !in s.threads && Owns(op) == None
    ensures History(s.Go(t, Some(op)))
  {}

  /** A pop starts an incarnation no log mentions. */
  lemma PopHistory(s: State, s': State, t: nat, b: nat)
    requires History(s) && t in s.threads && b < s.Size() && Owns(s.threads[t]) == None
    requires forall u :: u in s.threads ==> Owns(s.threads[u]) != Some(b)
    requires s'.WellFormed() && s'.Size() == s.Size() && s'.head.tag == s.head.tag + 1
    requires s'.incarnation == s.incarnation[b := s.head.tag + 1] && s'.zeroed == s.zeroed && s'.pushed == s.pushed
    requires s'.refs == s.refs && s.refs[b] == 0
    requires s'.threads == s.threads[t := DecFree(b, s.head.tag + 1)]
    ensures History(s')
  {
    forall u | u in s'.threads && Recycling(s'.threads[u]) && s'.threads[u].b < s'.Size()
      ensures Claimed(s', s'.threads[u].b, u)
    {
      assert Owns(s.threads[u]) == Some(s.threads[u].b);
    }
    forall u | u in s'.threads && Allocating(s'.threads[u]) && s'.threads[u].b < s'.Size()
      ensures Unreclaimed(s', s'.threads[u].b)
    {
      if u != t { assert Owns(s.threads[u]) == Some(s.threads[u].b); }
    }
  }

  lemma AbsentFromPushed(s: State, gen: nat)
    requires Logs(s) && Absent(s.zeroed, gen)
    ensures Absent(s.pushed, gen)
  {
    forall i | 0 <= i < |s.pushed| ensures s.pushed[i].gen != gen {
      assert s.pushed[i] in s.zeroed;
    }
  }

  lemma ZeroLogs(s: State, s': State, e: Event)
    requires Logs(s) && 0 < e.gen <= s.head.tag && Absent(s.zeroed, e.gen)
    requires s'.head == s.head && s'.zeroed == s.zeroed + [e] && s'.pushed == s.pushed
    ensures Logs(s')
  {
    forall x | x in s'.zeroed ensures 0 < x.gen <= s'.head.tag {
      if x !in s.zeroed {
        assert x == e;
      }
    }
  }

  lemma ZeroHistory(s: State, s': State, t: nat, b: nat, op: Op)
    requires History(s) && t in s.threads && b < s.Size() && s.refs[b] > 0 && Recycling(op) && op.b == b
    requires forall u :: u in s.threads ==> Owns(s.threads[u]) != Some(b)
    requires s'.WellFormed() && s'.Size() == s.Size() && s'.head == s.head && s'.incarnation == s.incarnation
    requires s'.zeroed == s.zeroed + [Event(s.incarnation[b], b, t)] && s'.pushed == s.pushed
    requires s'.refs == s.refs[b := 0] && s'.threads == s.threads[t := op]
    ensures History(s')
  {
    assert Unreclaimed(s, b);
    AbsentFromPushed(s, s.incarnation[b]);
    ZeroLogs(s, s', Event(s.incarnation[b], b, t));
    forall c | 0 <= c < s.Size() && s'.refs[c] > 0 ensures Unreclaimed(s', c) {
      assert Unreclaimed(s, c);
    }
    forall u | u in s'.threads && Allocating(s'.threads[u]) && s'.threads[u].b < s'.Size()
      ensures Unreclaimed(s', s'.threads[u].b)
    {
      assert Owns(s.threads[u]) == Some(s.threads[u].b);
    }
  }

  lemma PushHistory(s: State, s': State, t: nat, b: nat)
    requires History(s) && t in s.threads && b < s.Size() && Recycling(s.threads[t]) && s.threads[t].b == b
    requires forall u :: u in s.threads && u != t ==> Owns(s.threads[u]) != Some(b)
    requires s'.WellFormed() && s'.Size() == s.Size() && s'.head.tag == s.head.tag + 1
    requires s'.incarnation == s.incarnation
    requires s'.zeroed == s.zeroed && s'.pushed == s.pushed + [Event(s.incarnation[b], b, t)]
    requires s'.refs == s.refs && s'.threads == s.threads[t := IncFree]
    ensures History(s')
  {
    assert Claimed(s, b, t);
    forall u | u in s'.threads && Recycling(s'.threads[u]) && s'.threads[u].b < s'.Size()
      ensures Claimed(s', s'.threads[u].b, u)
    {
      assert Owns(s.threads[u]) == Some(s.threads[u].b);
    }
  }

  // ---------------------------------------------------------------- every step

  lemma NoOwner(s: State, b: nat)
    requires Inv(s) && b < s.Size() && (b in s.list || s.refs[b] > 0)
    ensures forall u :: u in s.threads ==> Owns(s.threads[u]) != Some(b)
  {
    forall u | u in s.threads ensures Owns(s.threads[u]) != Some(b) {
      if Owns(s.threads[u]) == Some(b) { assert OwnedBy(s, b, u); }
    }
  }

  lemma PopStep(s: State, t: nat, weak: bool, due: bool)
    requires Inv(s) && History(s) && Enabled(s, Advance(t, weak, due)) && PopSucceeds(s, s.threads[t], weak)
    ensures History(Step(s, Advance(t, weak, due)))
  {
    PopIsCurrent(s, t);
    assert s.list[0] in s.list;
    NoOwner(s, s.list[0]);
    PopHistory(s, Step(s, Advance(t, weak, due)), t, s.list[0]);
  }

  lemma PushStep(s: State, t: nat, weak: bool, due: bool)
    requires Inv(s) && History(s) && Enabled(s, Advance(t, weak, due)) && PushSucceeds(s, s.threads[t], weak)
    ensures History(Step(s, Advance(t, weak, due)))
  {
    var b := s.threads[t].b;
    assert OwnedBy(s, b, t);
    forall u | u in s.threads && u != t ensures Owns(s.threads[u]) != Some(b) {
      if Owns(s.threads[u]) == Some(b) { assert OwnedBy(s, b, u); }
    }
    PushHistory(s, Step(s, Advance(t, weak, due)), t, b);
  }

  lemma ZeroStep(s: State, t: nat, weak: bool, due: bool)
    requires Inv(s) && History(s) && Enabled(s, Advance(t, weak, due)) && Zeroes(s, s.threads[t], weak)
    ensures History(Step(s, Advance(t, weak, due)))
  {
    var op := s.threads[t];
    NoOwner(s, op.b);
    ZeroHistory(s, Step(s, Advance(t, weak, due)), t, op.b,
                if op.DecExchange? then SetFree(op.b) else SetFinal(op.b, op.kind));
  }

  lemma AdvanceHistory(s: State, t: nat, weak: bool, due: bool)
    requires Inv(s) && History(s) && Enabled(s, Advance(t, weak, due))
    ensures History(Step(s, Advance(t, weak, due)))
  {
    var op := s.threads[t];
    if PopSucceeds(s, op, weak) {
      PopStep(s, t, weak, due);
    } else if PushSucceeds(s, op, weak) {
      PushStep(s, t, weak, due);
    } else if Zeroes(s, op, weak) {
      ZeroStep(s, t, weak, due);
    } else {
      assert Facts(s, op);
      SilentEffect(s, t, op, weak);
      SilentNext(s, op, weak, due);
      SameHistory(s, Step(s, Advance(t, weak, due)), t, Next(s, op, weak, due));
    }
  }

  /** The other operations log nothing ... */
  lemma SilentEffect(s: State, t: nat, op: Op, weak: bool)
    requires s.WellFormed() && Facts(s, op)
    requires !PopSucceeds(s, op, weak) && !PushSucceeds(s, op, weak) && !Zeroes(s, op, weak)
    ensures var e := Effect(s, t, op, weak);
            && e.WellFormed() && e.Size() == s.Size() && e.head == s.head
            && e.incarnation == s.incarnation && e.zeroed == s.zeroed && e.pushed == s.pushed && e.threads == s.threads
    ensures forall b :: 0 <= b < s.Size() && Effect(s, t, op, weak).refs[b] > 0 ==>
              s.refs[b] > 0 || (Allocating(op) && op.b == b)
  {}

  /** ... and give no block a new standing. */
  lemma SilentNext(s: State, op: Op, weak: bool, due: bool)
    requires s.WellFormed() && Facts(s, op)
    requires !PopSucceeds(s, op, weak) && !PushSucceeds(s, op, weak) && !Zeroes(s, op, weak)
    ensures var next := Next(s, op, weak, due);
            && (next.Some? && Allocating(next.value) ==> Allocating(op) && next.value.b == op.b)
            && (next.Some? && Recycling(next.value) ==> Recycling(op) && next.value.b == op.b)
  {}

  lemma SubmitHistory(s: State, t: nat, count: nat)
    requires Inv(s) && History(s) && Enabled(s, Submit(t, count))
    ensures History(Step(s, Submit(t, count)))
  {
    SameHistory(s, Step(s, Submit(t, count)), t, Some(StoreRefs(s.threads[t].b, count)));
  }

  lemma StepHistory(s: State, a: Action)
    requires Inv(s) && History(s) && Enabled(s, a)
    ensures History(Step(s, a))
  {
    match a {
      case Start(t, req) => StartHistory(s, t, First(req));
      case Submit(t, count) => SubmitHistory(s, t, count);
      case Advance(t, weak, due) => AdvanceHistory(s, t, weak, due);
    }
  }

  lemma {:induction false} RunHistory(s: State, schedule: seq<Action>)
    requires Inv(s) && History(s)
    ensures Inv(Run(s, schedule)) && History(Run(s, schedule))
    decreases |schedule|
  {
    if schedule != [] {
      if Enabled(s, schedule[0]) {
        StepInv(s, schedule[0]);
        StepHistory(s, schedule[0]);
        RunHistory(Step(s, schedule[0]), schedule[1..]);
      } else {
        RunHistory(s, schedule[1..]);
      }
    }
  }

  // ---------------------------------------------------------------- main results

  ghost predicate Reachable(blocks: nat, s: State) {
    blocks > 0 && exists schedule :: s == Run(Init(blocks), schedule)
  }

  lemma ReachableInv(blocks: nat, s: State)
    requires Reachable(blocks, s)
    ensures Inv(s) && History(s)
  {
    var schedule :| s == Run(Init(blocks), schedule);
    InitInv(blocks);
    InitHistory(blocks);
    RunHistory(Init(blocks), schedule);
  }

  /** The free list is a simple chain: its links visit distinct blocks and end. */
  lemma FreeListIsSimple(blocks: nat, s: State)
    requires Reachable(blocks, s)
    ensures Chain(s)
  {
    ReachableInv(blocks, s);
  }

  /** A pop can only succeed with the link it read still being the link of the first
      free block, so it removes exactly that block. */
  lemma PopTakesTheFirstBlock(blocks: nat, s: State, t: nat)
    requires Reachable(blocks, s) && t in s.threads && PopSucceeds(s, s.threads[t], false)
    ensures |s.list| > 0 && s.threads[t].h.index == Some(s.list[0]) && s.threads[t].next == After(s.list, 1)
  {
    ReachableInv(blocks, s);
    PopIsCurrent(s, t);
  }

  /** Every block is free, referenced, or owned by one thread - exactly one of these -
      and a free block has no references. */
  lemma EveryBlockHasOnePlace(blocks: nat, s: State, b: nat)
    requires Reachable(blocks, s) && s.WellFormed() && b < s.Size()
    ensures b in s.list || s.refs[b] > 0 || exists t :: OwnedBy(s, b, t)
    ensures b in s.list ==> s.refs[b] == 0 && forall t :: !OwnedBy(s, b, t)
    ensures s.refs[b] > 0 ==> forall t :: !OwnedBy(s, b, t)
    ensures forall t, u :: OwnedBy(s, b, t) && OwnedBy(s, b, u) ==> t == u
  {
    ReachableInv(blocks, s);
  }

  /** Each incarnation of a block has its count taken to zero at most once and is
      pushed at most once, by the thread that took it to zero. */
  lemma ReclaimedOnce(blocks: nat, s: State)
    requires Reachable(blocks, s)
    ensures Once(s.zeroed) && Once(s.pushed)
    ensures forall e :: e in s.pushed ==> e in s.zeroed
  {
    ReachableInv(blocks, s);
  }

  /** The logs are complete: a count that goes from positive to zero, or a block that
      enters the list, is recorded for the acting thread in that very step. */
  lemma LogsAreComplete(blocks: nat, s: State, a: Action, b: nat)
    requires Reachable(blocks, s) && Enabled(s, a) && b < s.Size()
    ensures var s' := Step(s, a);
            && s'.WellFormed() && s'.Size() == s.Size()
            && (s.refs[b] > 0 && s'.refs[b] == 0 ==>
                  a.Advance? && s'.zeroed == s.zeroed + [Event(s.incarnation[b], b, a.t)])
            && (b !in s.list && b in s'.list ==>
                  a.Advance? && s'.pushed == s.pushed + [Event(s.incarnation[b], b, a.t)])
  {
    ReachableInv(blocks, s);
    if a.Advance? {
      var op := s.threads[a.t];
      assert Facts(s, op);
      if op.ClearRefs? { assert OwnedBy(s, op.b, a.t); }
      if PopSucceeds(s, op, a.weak) { PopIsCurrent(s, a.t); }
      EffectLogs(s, a.t, op, a.weak, b);
    }
  }

  lemma EffectLogs(s: State, t: nat, op: Op, weak: bool, b: nat)
    requires s.WellFormed() && Facts(s, op) && b < s.Size() && (op.ClearRefs? ==> s.refs[op.b] == 0)
    ensures var e := Effect(s, t, op, weak);
            && e.WellFormed() && e.Size() == s.Size()
            && (s.refs[b] > 0 && e.refs[b] == 0 ==> e.zeroed == s.zeroed + [Event(s.incarnation[b], b, t)])
            && (b !in s.list && b in e.list ==> e.pushed == s.pushed + [Event(s.incarnation[b], b, t)])
  {
    if PopSucceeds(s, op, weak) && s.list != [] {
      assert s.list == [s.list[0]] + s.list[1..];
    }
  }

  // ---------------------------------------------------------------- counters

  /** Counter updates a thread still owes. */
  datatype Debt = FreeDown | FreeUp | AllocUp | Unlisted

  predicate Owes(op: Op, d: Debt) {
    match d
    case FreeDown => op.DecFree?
    case FreeUp => op.IncFree?
    case AllocUp => op.DecFree? || op.IncAlloc?
    case Unlisted => op.PushLoad? || op.PushNext? || op.PushExchange?
  }

  /** Once operations in flight are accounted for, the counters match the list. */
  ghost predicate Counters(s: State) {
    && s.freeCount + |Owing(s.threads, Owes, FreeUp)| == |s.list| + |Owing(s.threads, Owes, FreeDown)|
    && s.allocCount + |Owing(s.threads, Owes, AllocUp)| + |Owing(s.threads, Owes, Unlisted)| + |s.list| == s.Size()
  }

  function Owed(next: Option<Op>, d: Debt): nat { One(next.Some? && Owes(next.value, d)) }

  predicate FreeBalanced(s: State, e: State, op: Op, next: Option<Op>) {
    e.freeCount - One(Owes(op, FreeUp)) + Owed(next, FreeUp) - |e.list|
    == s.freeCount - One(Owes(op, FreeDown)) + Owed(next, FreeDown) - |s.list|
  }

  predicate AllocBalanced(s: State, e: State, op: Op, next: Option<Op>) {
    e.allocCount - One(Owes(op, AllocUp)) + Owed(next, AllocUp) - One(Owes(op, Unlisted)) + Owed(next, Unlisted)
    + |e.list| == s.allocCount + |s.list|
  }

  /** What an operation does to the counters is what its thread stops or starts owing. */
  lemma CountersOfGo(s: State, e: State, t: nat, next: Option<Op>)
    requires Counters(s) && t in s.threads && e.threads == s.threads && e.Size() == s.Size()
    requires FreeBalanced(s, e, s.threads[t], next) && AllocBalanced(s, e, s.threads[t], next)
    ensures Counters(e.Go(t, next))
  {
    DebtOfGo(s.threads, Owes, t, next, FreeDown);
    DebtOfGo(s.threads, Owes, t, next, FreeUp);
    DebtOfGo(s.threads, Owes, t, next, AllocUp);
    DebtOfGo(s.threads, Owes, t, next, Unlisted);
  }

  /** What an operation does to the counters and the list, */
  lemma EffectCounts(s: State, t: nat, op: Op, weak: bool)
    requires s.WellFormed() && InRange(s, op) && (PopSucceeds(s, op, weak) ==> |s.list| > 0)
    ensures var e := Effect(s, t, op, weak);
            && e.Size() == s.Size() && e.threads == s.threads
            && e.freeCount == s.freeCount + One(op.IncFree?) - One(op.DecFree?)
            && e.allocCount == s.allocCount + One(op.IncAlloc?) - One(op.DecAlloc?)
            && |e.list| == |s.list| + One(PushSucceeds(s, op, weak)) - One(PopSucceeds(s, op, weak))
  {}

  /** what its thread owes the free counter then, */
  lemma NextOwesFree(s: State, op: Op, weak: bool, due: bool)
    requires s.WellFormed() && InRange(s, op)
    ensures var next := Next(s, op, weak, due);
            && Owed(next, FreeUp) == One(PushSucceeds(s, op, weak))
            && Owed(next, FreeDown) == One(PopSucceeds(s, op, weak))
  {}

  /** and what it owes the allocation counter. */
  lemma NextOwesAlloc(s: State, op: Op, weak: bool, due: bool)
    requires s.WellFormed() && InRange(s, op)
    ensures var next := Next(s, op, weak, due);
            && Owed(next, AllocUp) == One(PopSucceeds(s, op, weak) || op.DecFree?)
            && Owed(next, Unlisted) == One(op.DecAlloc? || (Owes(op, Unlisted) && !PushSucceeds(s, op, weak)))
  {}

  lemma AdvanceCounters(s: State, t: nat, weak: bool, due: bool)
    requires Inv(s) && Counters(s) && Enabled(s, Advance(t, weak, due))
    ensures Counters(Step(s, Advance(t, weak, due)))
  {
    var op := s.threads[t];
    if PopSucceeds(s, op, weak) {
      PopIsCurrent(s, t);
    }
    EffectCounts(s, t, op, weak);
    NextOwesFree(s, op, weak, due);
    NextOwesAlloc(s, op, weak, due);
    CountersOfGo(s, Effect(s, t, op, weak), t, Next(s, op, weak, due));
  }

  lemma StartCounters(s: State, t: nat, op: Op)
    requires Counters(s) && t !in s.threads && forall d :: !Owes(op, d)
    ensures Counters(s.Go(t, Some(op)))
  {
    DebtOfStart(s.threads, Owes, t, op, FreeDown);
    DebtOfStart(s.threads, Owes, t, op, FreeUp);
    DebtOfStart(s.threads, Owes, t, op, AllocUp);
    DebtOfStart(s.threads, Owes, t, op, Unlisted);
  }

  lemma CountersOfStep(s: State, a: Action)
    requires Inv(s) && Counters(s) && Enabled(s, a)
    ensures Counters(Step(s, a))
  {
    match a {
      case Start(t, req) => StartCounters(s, t, First(req));
      case Submit(t, count) => CountersOfGo(s, s, t, Some(StoreRefs(s.threads[t].b, count)));
      case Advance(t, weak, due) => AdvanceCounters(s, t, weak, due);
    }
  }

  lemma {:induction false} RunCounters(s: State, schedule: seq<Action>)
    requires Inv(s) && Counters(s)
    ensures Counters(Run(s, schedule))
    decreases |schedule|
  {
    if schedule != [] {
      if Enabled(s, schedule[0]) {
        StepInv(s, schedule[0]);
        CountersOfStep(s, schedule[0]);
        RunCounters(Step(s, schedule[0]), schedule[1..]);
      } else {
        RunCounters(s, schedule[1..]);
      }
    }
  }

  /** In every reachable state the counters equal the list sizes up to the operations
      in flight, so they are exact when there are none. */
  lemma CountersFollowTheList(blocks: nat, schedule: seq<Action>)
    requires blocks > 0
    ensures var s := Run(Init(blocks), schedule);
            && Counters(s)
            && (s.threads == map[] ==> s.freeCount == |s.list| && s.allocCount == s.Size() - |s.list|)
  {
    InitInv(blocks);
    assert forall d :: Owing(Init(blocks).threads, Owes, d) == {};
    RunCounters(Init(blocks), schedule);
    var s := Run(Init(blocks), schedule);
    if s.threads == map[] {
      assert forall d :: Owing(s.threads, Owes, d) == {};
    }
  }
}
