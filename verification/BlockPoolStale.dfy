/** Checked releases, step by step: the generation check and the release are separate operations, so a release
    that passed the check takes a reference of whatever incarnation the block is in by then. */
module BlockPoolStale {
  import opened Options
  import opened BlockPool
  import opened BlockPoolSafety
  import opened BlockPoolReclaim

  // ---------------------------------------------------------------- generations

  predicate Stamping(op: Op) { op.DecFree? || op.IncAlloc? || op.SetAllocated? || op.SetGeneration? }

  /** Thread `t` popped block `b` and has not stored its generation yet. */
  ghost predicate Unstamped(s: State, t: nat, b: nat) {
    t in s.threads && Stamping(s.threads[t]) && s.threads[t].b == b
  }

  /** The stored generation is the incarnation, unless the block was just popped: then it is an older one. */
  ghost predicate Stamp(s: State, b: nat)
    requires s.WellFormed() && b < s.Size()
  {
    && s.gens[b] <= s.incarnation[b]
    && (s.gens[b] < s.incarnation[b] <==> exists t :: Unstamped(s, t, b))
  }

  ghost predicate Stamps(s: State)
    requires s.WellFormed()
  {
    && (forall b :: 0 <= b < s.Size() ==> Stamp(s, b))
    && (forall t, b: nat :: Unstamped(s, t, b) && b < s.Size() ==> s.threads[t].gen == s.incarnation[b])
  }

  lemma InitStamps(blocks: nat)
    requires blocks > 0
    ensures Stamps(Init(blocks))
  {
    assert forall t, b: nat :: !Unstamped(Init(blocks), t, b);
  }

  /** Neither generations nor incarnations change, and the same threads still have to store one. */
  lemma SameStamps(s: State, s': State)
    requires s.WellFormed() && Stamps(s) && s'.WellFormed() && s'.Size() == s.Size()
    requires s'.gens == s.gens && s'.incarnation == s.incarnation
    requires forall t, b: nat :: Unstamped(s', t, b) <==> Unstamped(s, t, b)
    requires forall t, b: nat :: Unstamped(s', t, b) ==> s'.threads[t].gen == s.threads[t].gen
    ensures Stamps(s')
  {
    forall b | 0 <= b < s'.Size() ensures Stamp(s', b) {
      assert Stamp(s, b);
    }
  }

  lemma OthersSame(s: State, s': State, t: nat, next: Option<Op>)
    requires s'.threads == s.Go(t, next).threads
    ensures forall u, b: nat :: u != t ==> (Unstamped(s', u, b) <==> Unstamped(s, u, b))
    ensures forall u, b: nat :: u != t && Unstamped(s', u, b) ==> s'.threads[u].gen == s.threads[u].gen
  {
  }

  lemma PopStamps(s: State, s': State, t: nat, b: nat)
    requires s.WellFormed() && Stamps(s) && t in s.threads && Owns(s.threads[t]) == None && b < s.Size()
    requires forall u :: !Unstamped(s, u, b)
    requires s.incarnation[b] <= s.head.tag
    requires s'.WellFormed() && s'.Size() == s.Size() && s'.gens == s.gens
    requires s'.incarnation == s.incarnation[b := s.head.tag + 1]
    requires s'.threads == s.threads[t := DecFree(b, s.head.tag + 1)]
    ensures Stamps(s')
  {
    OthersSame(s, s', t, Some(DecFree(b, s.head.tag + 1)));
    forall c | 0 <= c < s'.Size() ensures Stamp(s', c) {
      assert Stamp(s, c);
      if c == b {
        assert Unstamped(s', t, b);
      } else {
        assert !Unstamped(s', t, c) && !Unstamped(s, t, c);
      }
    }
  }

  lemma StoreStamps(s: State, s': State, t: nat, b: nat)
    requires s.WellFormed() && Stamps(s) && b < s.Size() && t in s.threads && s.threads[t].SetGeneration?
    requires s.threads[t].b == b && forall u :: Unstamped(s, u, b) ==> u == t
    requires s'.WellFormed() && s'.Size() == s.Size() && s'.incarnation == s.incarnation
    requires s'.gens == s.gens[b := s.threads[t].gen] && s'.threads == s.threads[t := ClearRefs(b)]
    ensures Stamps(s')
  {
    assert Unstamped(s, t, b);
    OthersSame(s, s', t, Some(ClearRefs(b)));
    forall c | 0 <= c < s'.Size() ensures Stamp(s', c) {
      assert Stamp(s, c);
      assert !Unstamped(s', t, c);
      if c != b {
        assert !Unstamped(s, t, c);
      }
    }
  }

  /** The other operations store no generation and keep their own. */
  lemma QuietStamps(s: State, t: nat, op: Op, weak: bool)
    requires s.WellFormed() && InRange(s, op) && !PopSucceeds(s, op, weak) && !op.SetGeneration?
    ensures var e := Effect(s, t, op, weak);
            e.WellFormed() && e.Size() == s.Size() && e.gens == s.gens && e.incarnation == s.incarnation
  {
  }

  lemma QuietStamping(s: State, op: Op, weak: bool, due: bool)
    requires s.WellFormed() && InRange(s, op) && !PopSucceeds(s, op, weak) && !op.SetGeneration?
    ensures var next := Next(s, op, weak, due);
            if Stamping(op) then next.Some? && Stamping(next.value) && next.value.b == op.b && next.value.gen == op.gen
            else next.Some? ==> !Stamping(next.value)
  {
  }

  lemma GoStamps(s: State, e: State, t: nat, next: Option<Op>)
    requires s.WellFormed() && Stamps(s) && t in s.threads
    requires e.WellFormed() && e.Size() == s.Size() && e.gens == s.gens && e.incarnation == s.incarnation
    requires e.threads == s.threads
    requires if Stamping(s.threads[t])
             then next.Some? && Stamping(next.value)
                  && next.value.b == s.threads[t].b && next.value.gen == s.threads[t].gen
             else next.Some? ==> !Stamping(next.value)
    ensures Stamps(e.Go(t, next))
  {
    OthersSame(s, e.Go(t, next), t, next);
    SameStamps(s, e.Go(t, next));
  }

  lemma AdvanceStamps(s: State, s': State, t: nat, weak: bool, due: bool)
    requires Inv(s) && Incarnations(s) && Stamps(s) && Enabled(s, Advance(t, weak, due))
    requires s' == Step(s, Advance(t, weak, due)) && s'.WellFormed()
    ensures Stamps(s')
  {
    var op := s.threads[t];
    if PopSucceeds(s, op, weak) {
      PopIsCurrent(s, t);
      var b := s.list[0];
      assert b in s.list;
      NoOwner(s, b);
      PopStamps(s, s', t, b);
    } else if op.SetGeneration? {
      forall u | Unstamped(s, u, op.b) ensures u == t {
        assert OwnedBy(s, op.b, u) && OwnedBy(s, op.b, t);
      }
      StoreStamps(s, s', t, op.b);
    } else {
      QuietStamps(s, t, op, weak);
      QuietStamping(s, op, weak, due);
      EffectThreads(s, t, op, weak);
      GoStamps(s, Effect(s, t, op, weak), t, Next(s, op, weak, due));
    }
  }

  lemma StepStamps(s: State, a: Action)
    requires Inv(s) && Incarnations(s) && Stamps(s) && Enabled(s, a)
    ensures Step(s, a).WellFormed() && Stamps(Step(s, a))
  {
    StepInv(s, a);
    match a {
      case Start(t, req) =>
        OthersSame(s, Step(s, a), t, Some(First(req)));
        SameStamps(s, Step(s, a));
      case Submit(t, count) => GoStamps(s, s, t, Some(StoreRefs(s.threads[t].b, count)));
      case Advance(t, weak, due) => AdvanceStamps(s, Step(s, a), t, weak, due);
    }
  }

  lemma {:induction false} RunStamps(s: State, schedule: seq<Action>)
    requires Inv(s) && History(s) && Stamps(s)
    ensures Run(s, schedule).WellFormed() && Stamps(Run(s, schedule))
    decreases |schedule|
  {
    if schedule != [] {
      if Enabled(s, schedule[0]) {
        StepInv(s, schedule[0]);
        StepHistory(s, schedule[0]);
        StepStamps(s, schedule[0]);
        RunStamps(Step(s, schedule[0]), schedule[1..]);
      } else {
        RunStamps(s, schedule[1..]);
      }
    }
  }

  // ---------------------------------------------------------------- incarnations

  /** The step takes block `b` off the free list. */
  predicate Pops(s: State, a: Action, b: nat) {
    a.Advance? && Enabled(s, a) && PopSucceeds(s, s.threads[a.t], a.weak) && s.threads[a.t].h.index == Some(b)
  }

  predicate Popped(s: State, schedule: seq<Action>, b: nat)
    decreases |schedule|
  {
    if schedule == [] then false
    else if Enabled(s, schedule[0]) then Pops(s, schedule[0], b) || Popped(Step(s, schedule[0]), schedule[1..], b)
    else Popped(s, schedule[1..], b)
  }

  lemma StepIncarnation(s: State, a: Action, b: nat)
    requires Inv(s) && Incarnations(s) && Enabled(s, a) && b < s.Size()
    ensures var s' := Step(s, a);
            && s'.WellFormed() && s'.Size() == s.Size()
            && if Pops(s, a, b) then s'.incarnation[b] > s.incarnation[b] else s'.incarnation[b] == s.incarnation[b]
  {
    if a.Advance? {
      var op := s.threads[a.t];
      if PopSucceeds(s, op, a.weak) {
        PopIsCurrent(s, a.t);
      } else if op.SetGeneration? {
      } else {
        QuietStamps(s, a.t, op, a.weak);
      }
    }
  }

  /** An incarnation lasts exactly until the block is popped again. */
  lemma {:induction false} IncarnationLasts(s: State, schedule: seq<Action>, b: nat)
    requires Inv(s) && History(s) && b < s.Size()
    ensures var r := Run(s, schedule);
            && r.WellFormed() && r.Size() == s.Size() && s.incarnation[b] <= r.incarnation[b]
            && (r.incarnation[b] == s.incarnation[b] <==> !Popped(s, schedule, b))
    decreases |schedule|
  {
    if schedule != [] {
      if Enabled(s, schedule[0]) {
        StepInv(s, schedule[0]);
        StepHistory(s, schedule[0]);
        StepIncarnation(s, schedule[0], b);
        IncarnationLasts(Step(s, schedule[0]), schedule[1..], b);
      } else {
        IncarnationLasts(s, schedule[1..], b);
      }
    }
  }

  // ---------------------------------------------------------------- checked releases

  /** A checked release whose generation does not match ends at the check and changes nothing else. */
  lemma StaleCheckEnds(s: State, t: nat, b: nat, gen: nat, weak: bool, due: bool)
    requires s.WellFormed() && t in s.threads && s.threads[t] == CheckGeneration(b, gen) && b < s.Size()
    ensures Step(s, Advance(t, weak, due)) == s.Go(t, if gen == s.gens[b] then Some(DecLoad(b)) else None)
  {
  }

  /** One that passes the check acts, whenever it comes to its exchange, on the incarnation its handle names exactly
      if the block was not being allocated at the check and has not been popped since. */
  lemma CheckedReleaseIsCurrentIff(blocks: nat, s: State, t: nat, b: nat, gen: nat, schedule: seq<Action>)
    requires Reachable(blocks, s) && s.WellFormed() && b < s.Size()
    requires t in s.threads && s.threads[t] == CheckGeneration(b, gen) && s.gens[b] == gen
    ensures var u := s.Go(t, Some(DecLoad(b)));
            var r := Run(u, schedule);
            && r.WellFormed() && b < r.Size()
            && (r.incarnation[b] == gen <==> (forall x :: !Unstamped(s, x, b)) && !Popped(u, schedule, b))
  {
    var a := Advance(t, false, false);
    var u := s.Go(t, Some(DecLoad(b)));
    ReachableInv(blocks, s);
    ReachableStamps(blocks, s);
    StaleCheckEnds(s, t, b, gen, false, false);
    StepInv(s, a);
    StepHistory(s, a);
    IncarnationLasts(u, schedule, b);
    assert Stamp(s, b);
  }

  lemma ReachableStamps(blocks: nat, s: State)
    requires Reachable(blocks, s)
    ensures s.WellFormed() && Stamps(s)
  {
    var schedule :| s == Run(Init(blocks), schedule);
    InitInv(blocks);
    InitHistory(blocks);
    InitStamps(blocks);
    RunStamps(Init(blocks), schedule);
  }
}
