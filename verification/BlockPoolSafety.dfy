/** Safety of the block pool in every interleaving: the free list stays a simple
    chain, every block has exactly one place, and every allocation is reclaimed at
    most once. */
module BlockPoolSafety {
  import opened Options
  import opened BlockPool

  // ---------------------------------------------------------------- places

  /** Between winning a pop and storing the reference count. */
  predicate Allocating(op: Op) {
    || op.DecFree? || op.IncAlloc? || op.SetAllocated? || op.SetGeneration?
    || op.ClearRefs? || op.Holding? || op.StoreRefs?
  }

  /** Between taking a count to zero and pushing the block. */
  predicate Recycling(op: Op) {
    op.SetFinal? || op.SetFree? || op.DecAlloc? || op.PushLoad? || op.PushNext? || op.PushExchange?
  }

  /** The block a thread owns alone. */
  function Owns(op: Op): Option<nat> {
    if Allocating(op) || Recycling(op) then Some(op.b) else None
  }

  ghost predicate OwnedBy(s: State, b: nat, t: nat) {
    t in s.threads && Owns(s.threads[t]) == Some(b)
  }

  // ---------------------------------------------------------------- invariant

  /** The head and the links spell out the list, without repetition. */
  ghost predicate Chain(s: State) {
    && s.WellFormed()
    && Distinct(s.list)
    && (forall i :: 0 <= i < |s.list| ==> s.list[i] < s.Size())
    && s.head.index == After(s.list, 0)
    && (forall i :: 0 <= i < |s.list| ==> Linked(s, i))
  }

  /** The link of the `i`-th listed block leads to the next one. */
  ghost predicate Linked(s: State, i: nat) {
    i < |s.list| && s.list[i] < s.Size() && s.next[s.list[i]] == After(s.list, i + 1)
  }

  /** Every block is in the list, referenced, or owned by a thread, and never two of
      these; no two threads own the same block. */
  ghost predicate Places(s: State)
    requires s.WellFormed()
  {
    && (forall b :: b in s.list && b < s.Size() ==> s.refs[b] == 0)
    && (forall t, b: nat :: OwnedBy(s, b, t) && b < s.Size() ==> s.refs[b] == 0 && b !in s.list)
    && (forall t, u, b :: OwnedBy(s, b, t) && OwnedBy(s, b, u) ==> t == u)
    && (forall b :: 0 <= b < s.Size() && b !in s.list && s.refs[b] == 0 ==> exists t :: OwnedBy(s, b, t))
  }

  /** A loaded head: still current exactly when its tag is. */
  ghost predicate Loaded(s: State, h: Head) {
    h.tag <= s.head.tag && (h.tag == s.head.tag ==> h == s.head)
  }

  ghost predicate Facts(s: State, op: Op)
    requires s.WellFormed()
  {
    && InRange(s, op)
    && match op
       case PopNext(h) => Loaded(s, h)
       case PopExchange(h, next) => Loaded(s, h) && (h == s.head ==> next == s.next[h.index.value])
       case PushNext(_, h) => Loaded(s, h)
       case PushExchange(b, h) => Loaded(s, h) && s.next[b] == h.index
       case DecExchange(_, cur) => cur > 0
       case ZeroExchange(_, cur, _) => cur > 0
       case StoreRefs(_, count) => count > 0
       case _ => true
  }

  ghost predicate Threads(s: State)
    requires s.WellFormed()
  {
    forall t :: t in s.threads ==> Facts(s, s.threads[t])
  }

  ghost predicate Inv(s: State) {
    Chain(s) && Places(s) && Threads(s)
  }

  lemma InitInv(blocks: nat)
    requires blocks > 0
    ensures Inv(Init(blocks))
  {
    var s := Init(blocks);
    forall b | 0 <= b < s.Size() ensures b in s.list {
      assert s.list[b] == b;
    }
    assert forall t, b: nat :: !OwnedBy(s, b, t);
  }

  lemma SameChain(s: State, s': State)
    requires Chain(s) && s'.WellFormed() && s'.next == s.next && s'.list == s.list && s'.head == s.head
    ensures Chain(s')
  {
    forall i | 0 <= i < |s'.list| ensures Linked(s', i) {
      assert Linked(s, i);
    }
  }

  // ---------------------------------------------------------------- steps that leave the pool alone

  /** Thread `t` moves on, owning what it owned before, and neither the chain nor any
      count changed. */
  lemma QuietInv(s: State, s': State, t: nat, next: Option<Op>)
    requires Inv(s) && t in s.threads
    requires s'.WellFormed() && s'.Size() == s.Size()
    requires s'.head == s.head && s'.next == s.next && s'.refs == s.refs && s'.list == s.list
    requires s'.threads == s.Go(t, next).threads
    requires next.Some? ==> Facts(s, next.value)
    requires Owns(s.threads[t]) == if next.Some? then Owns(next.value) else None
    ensures Inv(s')
  {
    SameChain(s, s');
    forall u | u in s'.threads ensures Facts(s', s'.threads[u]) {
      if u != t { assert Facts(s, s.threads[u]); }
    }
    forall b, u ensures OwnedBy(s', b, u) == OwnedBy(s, b, u) {}
  }

  lemma StartInv(s: State, t: nat, op: Op)
    requires Inv(s) && t !in s.threads && Facts(s, op) && Owns(op) == None
    ensures Inv(s.Go(t, Some(op)))
  {
    var s' := s.Go(t, Some(op));
    SameChain(s, s');
    forall u | u in s'.threads ensures Facts(s', s'.threads[u]) {
      if u != t { assert Facts(s, s.threads[u]); }
    }
    forall b, u ensures OwnedBy(s', b, u) == OwnedBy(s, b, u) {}
  }

  // ---------------------------------------------------------------- the chain

  /** A pop whose exchange succeeds installs the block after the head, although the
      link was read separately: an unchanged tag means nothing was pushed or popped. */
  lemma PopIsCurrent(s: State, t: nat)
    requires Inv(s) && t in s.threads && s.threads[t].PopExchange? && s.head == s.threads[t].h
    ensures |s.list| > 0 && s.threads[t].h.index == Some(s.list[0]) && s.threads[t].next == After(s.list, 1)
  {
    assert Facts(s, s.threads[t]);
    assert Linked(s, 0);
  }

  lemma PopInv(s: State, s': State, t: nat, gen: nat)
    requires Inv(s) && t in s.threads && Owns(s.threads[t]) == None && |s.list| > 0
    requires s'.WellFormed() && s'.next == s.next && s'.refs == s.refs && s'.list == s.list[1..]
    requires s'.head == Head(After(s.list, 1), s.head.tag + 1)
    requires s'.threads == s.threads[t := DecFree(s.list[0], gen)]
    ensures Inv(s')
  {
    PopChain(s, s');
    PopPlaces(s, s', t, gen);
    forall u | u in s'.threads ensures Facts(s', s'.threads[u]) {
      if u != t { assert Facts(s, s.threads[u]); }
    }
  }

  lemma PopChain(s: State, s': State)
    requires Chain(s) && |s.list| > 0
    requires s'.WellFormed() && s'.next == s.next && s'.list == s.list[1..] && s'.head.index == After(s.list, 1)
    ensures Chain(s')
  {
    forall i | 0 <= i < |s'.list| ensures Linked(s', i) {
      assert Linked(s, i + 1) && s'.list[i] == s.list[i + 1];
    }
  }

  lemma PopPlaces(s: State, s': State, t: nat, gen: nat)
    requires Chain(s) && Places(s) && t in s.threads && Owns(s.threads[t]) == None && |s.list| > 0
    requires s'.WellFormed() && s'.Size() == s.Size() && s'.refs == s.refs && s'.list == s.list[1..]
    requires s'.threads == s.threads[t := DecFree(s.list[0], gen)]
    ensures Places(s')
  {
    var b := s.list[0];
    forall u, c: nat ensures OwnedBy(s', c, u) == (OwnedBy(s, c, u) || (c == b && u == t)) {}
    assert s.list == [b] + s'.list;
    assert b in s.list && b !in s'.list;
    forall c | 0 <= c < s.Size() && c !in s'.list && s'.refs[c] == 0 ensures exists u :: OwnedBy(s', c, u) {
      if c == b {
        assert OwnedBy(s', b, t);
      } else {
        var u :| OwnedBy(s, c, u);
        assert OwnedBy(s', c, u);
      }
    }
  }

  lemma PushInv(s: State, s': State, t: nat, b: nat)
    requires Inv(s) && t in s.threads && Owns(s.threads[t]) == Some(b) && b < s.Size()
    requires s.next[b] == s.head.index
    requires s'.WellFormed() && s'.next == s.next && s'.refs == s.refs && s'.list == [b] + s.list
    requires s'.head == Head(Some(b), s.head.tag + 1)
    requires s'.threads == s.threads[t := IncFree]
    ensures Inv(s')
  {
    assert OwnedBy(s, b, t);
    PushChain(s, s', b);
    PushPlaces(s, s', t, b);
    forall u | u in s'.threads ensures Facts(s', s'.threads[u]) {
      if u != t { assert Facts(s, s.threads[u]); }
    }
  }

  lemma PushChain(s: State, s': State, b: nat)
    requires Chain(s) && b < s.Size() && b !in s.list && s.next[b] == s.head.index
    requires s'.WellFormed() && s'.next == s.next && s'.list == [b] + s.list && s'.head.index == Some(b)
    ensures Chain(s')
  {
    forall i | 0 <= i < |s'.list| ensures Linked(s', i) {
      if i > 0 {
        assert Linked(s, i - 1) && s'.list[i] == s.list[i - 1];
      }
    }
  }

  lemma PushPlaces(s: State, s': State, t: nat, b: nat)
    requires s.WellFormed() && Places(s) && OwnedBy(s, b, t) && b < s.Size()
    requires s'.WellFormed() && s'.Size() == s.Size() && s'.refs == s.refs && s'.list == [b] + s.list
    requires s'.threads == s.threads[t := IncFree]
    ensures Places(s')
  {
    forall u, c: nat ensures OwnedBy(s', c, u) == (OwnedBy(s, c, u) && u != t) {}
    forall c | 0 <= c < s.Size() && c !in s'.list && s'.refs[c] == 0 ensures exists u :: OwnedBy(s', c, u) {
      assert c !in s.list && c != b;
      var u :| OwnedBy(s, c, u);
      assert OwnedBy(s', c, u);
    }
  }

  /** Linking a block nobody else owns, before pushing it. */
  lemma LinkInv(s: State, s': State, t: nat, b: nat, h: Head)
    requires Inv(s) && t in s.threads && s.threads[t] == PushNext(b, h)
    requires s' == s.(next := s.next[b := h.index]).Go(t, Some(PushExchange(b, h))) && b < s.Size()
    ensures Inv(s')
  {
    assert Facts(s, s.threads[t]) && OwnedBy(s, b, t);
    forall i | 0 <= i < |s'.list| ensures Linked(s', i) {
      assert Linked(s, i) && s.list[i] != b;
    }
    forall c, u ensures OwnedBy(s', c, u) == OwnedBy(s, c, u) {}
    forall u | u in s'.threads ensures Facts(s', s'.threads[u]) {
      if u != t {
        assert Facts(s, s.threads[u]);
        OthersLinks(s, s', t, u, b);
      }
    }
  }

  lemma OthersLinks(s: State, s': State, t: nat, u: nat, b: nat)
    requires Inv(s) && t in s.threads && u in s.threads && t != u && OwnedBy(s, b, t) && b < s.Size()
    requires Facts(s, s.threads[u])
    requires s'.WellFormed() && s'.head == s.head && s'.Size() == s.Size()
    requires forall c :: 0 <= c < s.Size() && c != b ==> s'.next[c] == s.next[c]
    ensures Facts(s', s.threads[u])
  {
    var op := s.threads[u];
    if op.PushExchange? { assert OwnedBy(s, op.b, u); }
    if op.PopExchange? && op.h == s.head { assert s.list[0] in s.list; }
  }

  // ---------------------------------------------------------------- the counts

  /** A count goes down and stays positive. */
  lemma DecInv(s: State, s': State, t: nat, b: nat, count: nat)
    requires Inv(s) && t in s.threads && Owns(s.threads[t]) == None && b < s.Size() && s.refs[b] > 0 && count > 0
    requires s'.WellFormed() && s'.next == s.next && s'.list == s.list && s'.head == s.head
    requires s'.refs == s.refs[b := count] && s'.threads == s.threads - {t}
    ensures Inv(s')
  {
    SameChain(s, s');
    forall c, u ensures OwnedBy(s', c, u) == OwnedBy(s, c, u) {}
    forall u | u in s'.threads ensures Facts(s', s'.threads[u]) {
      assert Facts(s, s.threads[u]);
    }
  }

  /** A count goes to zero: the thread that did it owns the block. */
  lemma ZeroInv(s: State, s': State, t: nat, b: nat, op: Op)
    requires Inv(s) && t in s.threads && Owns(s.threads[t]) == None && b < s.Size() && s.refs[b] > 0
    requires Owns(op) == Some(b) && Facts(s, op) && !op.PushNext? && !op.PushExchange?
    requires s'.WellFormed() && s'.next == s.next && s'.list == s.list && s'.head == s.head
    requires s'.refs == s.refs[b := 0] && s'.threads == s.threads[t := op]
    ensures Inv(s')
  {
    SameChain(s, s');
    forall c, u ensures OwnedBy(s', c, u) == (OwnedBy(s, c, u) || (c == b && u == t)) {}
    forall c | 0 <= c < s.Size() && c !in s'.list && s'.refs[c] == 0 ensures exists u :: OwnedBy(s', c, u) {
      if c == b {
        assert OwnedBy(s', b, t);
      } else {
        var u :| OwnedBy(s, c, u);
        assert OwnedBy(s', c, u);
      }
    }
    forall u | u in s'.threads ensures Facts(s', s'.threads[u]) {
      if u != t { assert Facts(s, s.threads[u]); }
    }
  }

  /** Submitting: the owner gives the block to its consumers. */
  lemma StoreInv(s: State, s': State, t: nat, b: nat, count: nat)
    requires Inv(s) && t in s.threads && s.threads[t] == StoreRefs(b, count) && b < s.Size()
    requires s' == s.(refs := s.refs[b := count]).Go(t, Some(SetReady(b)))
    ensures Inv(s')
  {
    SameChain(s, s');
    assert Facts(s, s.threads[t]) && OwnedBy(s, b, t);
    forall c, u ensures OwnedBy(s', c, u) == (OwnedBy(s, c, u) && u != t) {}
    forall c | 0 <= c < s.Size() && c !in s'.list && s'.refs[c] == 0 ensures exists u :: OwnedBy(s', c, u) {
      var u :| OwnedBy(s, c, u);
      assert OwnedBy(s', c, u);
    }
    forall u | u in s'.threads ensures Facts(s', s'.threads[u]) {
      if u != t { assert Facts(s, s.threads[u]); }
    }
  }

  // ---------------------------------------------------------------- every run

  /** The operations that change the chain. */
  lemma ChainStep(s: State, t: nat, weak: bool, due: bool)
    requires Inv(s) && Enabled(s, Advance(t, weak, due))
    requires var op := s.threads[t]; PopSucceeds(s, op, weak) || PushSucceeds(s, op, weak) || op.PushNext?
    ensures Inv(Step(s, Advance(t, weak, due)))
  {
    var op := s.threads[t];
    var s' := Step(s, Advance(t, weak, due));
    assert Facts(s, op);
    if op.PopExchange? {
      PopIsCurrent(s, t);
      PopInv(s, s', t, op.h.tag + 1);
    } else if op.PushExchange? {
      PushInv(s, s', t, op.b);
    } else {
      LinkInv(s, s', t, op.b, op.h);
    }
  }

  /** The exchange that reclaims a block. */
  lemma ZeroStep(s: State, t: nat, weak: bool, due: bool)
    requires Inv(s) && Enabled(s, Advance(t, weak, due)) && Zeroes(s, s.threads[t], weak)
    ensures Inv(Step(s, Advance(t, weak, due)))
  {
    var op := s.threads[t];
    assert Facts(s, op);
    ZeroInv(s, Step(s, Advance(t, weak, due)), t, op.b,
            if op.DecExchange? then SetFree(op.b) else SetFinal(op.b, op.kind));
  }

  /** The exchange that gives back one reference of several. */
  lemma DecStep(s: State, t: nat, weak: bool, due: bool)
    requires Inv(s) && Enabled(s, Advance(t, weak, due))
    requires RefExchange(s, s.threads[t], weak) && !Zeroes(s, s.threads[t], weak)
    ensures Inv(Step(s, Advance(t, weak, due)))
  {
    var op := s.threads[t];
    assert Facts(s, op);
    DecInv(s, Step(s, Advance(t, weak, due)), t, op.b, op.cur - 1);
  }

  lemma AdvanceInv(s: State, t: nat, weak: bool, due: bool)
    requires Inv(s) && Enabled(s, Advance(t, weak, due))
    ensures Inv(Step(s, Advance(t, weak, due)))
  {
    var op := s.threads[t];
    if PopSucceeds(s, op, weak) || PushSucceeds(s, op, weak) || op.PushNext? {
      ChainStep(s, t, weak, due);
    } else if Zeroes(s, op, weak) {
      ZeroStep(s, t, weak, due);
    } else if RefExchange(s, op, weak) {
      DecStep(s, t, weak, due);
    } else if op.StoreRefs? {
      StoreInv(s, Step(s, Advance(t, weak, due)), t, op.b, op.count);
    } else {
      QuietStep(s, t, weak, due);
    }
  }

  /** The remaining operations touch neither the chain nor a count. */
  lemma QuietStep(s: State, t: nat, weak: bool, due: bool)
    requires Inv(s) && Enabled(s, Advance(t, weak, due))
    requires var op := s.threads[t];
             && !PopSucceeds(s, op, weak) && !PushSucceeds(s, op, weak) && !RefExchange(s, op, weak)
             && !op.PushNext? && !op.StoreRefs?
    ensures Inv(Step(s, Advance(t, weak, due)))
  {
    var op := s.threads[t];
    assert Facts(s, op);
    if op.ClearRefs? { assert OwnedBy(s, op.b, t); assert s.refs[op.b := 0] == s.refs; }
    QuietEffect(s, t, op, weak);
    QuietNext(s, op, weak, due);
    QuietInv(s, Step(s, Advance(t, weak, due)), t, Next(s, op, weak, due));
  }

  lemma QuietEffect(s: State, t: nat, op: Op, weak: bool)
    requires s.WellFormed() && InRange(s, op)
    requires !PopSucceeds(s, op, weak) && !PushSucceeds(s, op, weak) && !RefExchange(s, op, weak)
    requires !op.PushNext? && !op.StoreRefs? && (op.ClearRefs? ==> s.refs[op.b := 0] == s.refs)
    ensures var e := Effect(s, t, op, weak);
            && e.WellFormed() && e.head == s.head && e.next == s.next && e.refs == s.refs && e.list == s.list
            && e.threads == s.threads
  {}

  lemma QuietNext(s: State, op: Op, weak: bool, due: bool)
    requires Chain(s) && Facts(s, op)
    requires !PopSucceeds(s, op, weak) && !PushSucceeds(s, op, weak) && !RefExchange(s, op, weak)
    requires !op.PushNext? && !op.StoreRefs?
    ensures var next := Next(s, op, weak, due);
            && (next.Some? ==> Facts(s, next.value))
            && Owns(op) == if next.Some? then Owns(next.value) else None
  {
    if Allocating(op) { QuietAllocation(s, op, weak, due); }
    else if Recycling(op) { QuietRecycling(s, op, weak, due); }
  }

  lemma QuietAllocation(s: State, op: Op, weak: bool, due: bool)
    requires s.WellFormed() && Facts(s, op) && Allocating(op) && !op.StoreRefs?
    ensures var next := Next(s, op, weak, due);
            next.Some? && Facts(s, next.value) && Owns(op) == Owns(next.value)
  {}

  lemma QuietRecycling(s: State, op: Op, weak: bool, due: bool)
    requires s.WellFormed() && Facts(s, op) && Recycling(op) && !op.PushNext? && !PushSucceeds(s, op, weak)
    ensures var next := Next(s, op, weak, due);
            next.Some? && Facts(s, next.value) && Owns(op) == Owns(next.value)
  {}

  lemma StepInv(s: State, a: Action)
    requires Inv(s) && Enabled(s, a)
    ensures Inv(Step(s, a))
  {
    match a {
      case Start(t, req) => StartInv(s, t, First(req));
      case Submit(t, count) =>
        assert Facts(s, s.threads[t]);
        QuietInv(s, Step(s, a), t, Some(StoreRefs(s.threads[t].b, count)));
      case Advance(t, weak, due) => AdvanceInv(s, t, weak, due);
    }
  }

  lemma {:induction false} RunInv(s: State, schedule: seq<Action>)
    requires Inv(s)
    ensures Inv(Run(s, schedule))
    decreases |schedule|
  {
    if schedule != [] {
      if Enabled(s, schedule[0]) {
        StepInv(s, schedule[0]);
        RunInv(Step(s, schedule[0]), schedule[1..]);
      } else {
        RunInv(s, schedule[1..]);
      }
    }
  }
}
