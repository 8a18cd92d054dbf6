/** A run in which a checked release takes the reference of a later holder: it passes the generation check, the block
    is reclaimed and allocated again, and then it goes on. */
module BlockPoolRace {
  import opened Options
  import opened BlockStates
  import opened BlockPool
  import opened BlockPoolReclaim

  // ---------------------------------------------------------------- steps of a run

  lemma {:induction false} RunOn(s: State, schedule: seq<Action>, a: Action)
    requires Enabled(Run(s, schedule), a)
    ensures Run(s, schedule + [a]) == Step(Run(s, schedule), a)
    decreases |schedule|
  {
    if schedule == [] {
      assert [] + [a] == [a];
      assert [a][1..] == [];
    } else {
      assert (schedule + [a])[1..] == schedule[1..] + [a];
      if Enabled(s, schedule[0]) {
        RunOn(Step(s, schedule[0]), schedule[1..], a);
      } else {
        RunOn(s, schedule[1..], a);
      }
    }
  }

  /** Some schedule leads from `o` to `s`. */
  ghost predicate From(o: State, s: State) { exists schedule :: s == Run(o, schedule) }

  lemma Takes(o: State, s: State, a: Action) returns (u: State)
    requires From(o, s) && Enabled(s, a)
    ensures From(o, u) && u == Step(s, a)
  {
    var schedule :| s == Run(o, schedule);
    RunOn(o, schedule, a);
    u := Step(s, a);
  }

  /** One step of a thread while the others, `rest`, stand still; its effect and its next operation are given. */
  lemma Moves(o: State, s: State, e: State, rest: map<nat, Op>, t: nat, op: Op, next: Option<Op>) returns (u: State)
    requires From(o, s) && s.WellFormed() && t !in rest && s.threads == rest[t := op] && InRange(s, op)
    requires e == Effect(s, t, op, false) && next == Next(s, op, false, true)
    ensures From(o, u) && u == e.(threads := if next.Some? then rest[t := next.value] else rest)
  {
    u := Takes(o, s, Advance(t, false, true));
    EffectThreads(s, t, op, false);
    if next.Some? {
      assert s.threads[t := next.value] == rest[t := next.value];
    } else {
      assert s.threads - {t} == rest;
    }
  }

  // ---------------------------------------------------------------- a pool of one block

  predicate OneBlock(s: State) { s.WellFormed() && s.Size() == 1 }

  predicate IsFree(s: State) { OneBlock(s) && s.list == [0] && s.head.index == Some(0) && s.next[0] == None }

  /** The block is with one consumer, in the incarnation `gen`. */
  predicate IsHeld(s: State, gen: nat) {
    && OneBlock(s) && s.list == [] && s.head == Head(None, gen)
    && s.incarnation[0] == gen && s.gens[0] == gen && s.refs[0] == 1
  }

  predicate SameList(s: State, u: State) {
    && OneBlock(u) && u.head == s.head && u.list == s.list && u.next == s.next
    && u.incarnation == s.incarnation && u.zeroed == s.zeroed
  }

  // ---------------------------------------------------------------- allocation

  lemma LoadsHead(o: State, s: State, rest: map<nat, Op>, t: nat) returns (u: State)
    requires From(o, s) && IsFree(s) && t !in rest && s.threads == rest
    ensures From(o, u) && u == s.(threads := rest[t := PopExchange(s.head, None)])
  {
    var s1 := Takes(o, s, Start(t, Alloc));
    var s2 := Moves(o, s1, s1, rest, t, PopLoad, Some(PopNext(s.head)));
    u := Moves(o, s2, s2, rest, t, PopNext(s.head), Some(PopExchange(s.head, None)));
  }

  lemma PopsBlock(o: State, s: State, rest: map<nat, Op>, t: nat) returns (u: State)
    requires From(o, s) && IsFree(s) && t !in rest && s.threads == rest
    ensures From(o, u) && OneBlock(u) && u.head == Head(None, s.head.tag + 1) && u.list == []
    ensures u.incarnation[0] == s.head.tag + 1 && u.zeroed == s.zeroed
    ensures u.threads == rest[t := DecFree(0, s.head.tag + 1)]
  {
    var h := s.head;
    var s1 := LoadsHead(o, s, rest, t);
    u := Moves(o, s1, s1.(head := Head(None, h.tag + 1), list := s1.list[1..],
                          incarnation := s1.incarnation[0 := h.tag + 1]),
               rest, t, PopExchange(h, None), Some(DecFree(0, h.tag + 1)));
  }

  lemma CountsBlock(o: State, s: State, rest: map<nat, Op>, t: nat, gen: nat) returns (u: State)
    requires From(o, s) && OneBlock(s) && t !in rest && s.threads == rest[t := DecFree(0, gen)]
    ensures From(o, u) && SameList(s, u) && u.threads == rest[t := SetAllocated(0, gen)]
  {
    var s1 := Moves(o, s, s.(freeCount := s.freeCount - 1), rest, t, DecFree(0, gen), Some(IncAlloc(0, gen)));
    u := Moves(o, s1, s1.(allocCount := s1.allocCount + 1), rest, t, IncAlloc(0, gen), Some(SetAllocated(0, gen)));
  }

  lemma MarksBlock(o: State, s: State, rest: map<nat, Op>, t: nat, gen: nat) returns (u: State)
    requires From(o, s) && OneBlock(s) && t !in rest && s.threads == rest[t := SetAllocated(0, gen)]
    ensures From(o, u) && SameList(s, u) && u.gens[0] == gen && u.threads == rest[t := ClearRefs(0)]
  {
    var s1 := Moves(o, s, s.(states := s.states[0 := Allocated]), rest, t, SetAllocated(0, gen),
                    Some(SetGeneration(0, gen)));
    u := Moves(o, s1, s1.(gens := s1.gens[0 := gen]), rest, t, SetGeneration(0, gen), Some(ClearRefs(0)));
  }

  lemma SubmitsBlock(o: State, s: State, rest: map<nat, Op>, t: nat) returns (u: State)
    requires From(o, s) && OneBlock(s) && t !in rest && s.threads == rest[t := ClearRefs(0)]
    ensures From(o, u) && SameList(s, u) && u.gens == s.gens && u.refs[0] == 1 && u.threads == rest
  {
    var s1 := Moves(o, s, s.(refs := s.refs[0 := 0]), rest, t, ClearRefs(0), Some(Holding(0)));
    var s2 := Takes(o, s1, Submit(t, 1));
    var s3 := Moves(o, s2, s2.(refs := s2.refs[0 := 1]), rest, t, StoreRefs(0, 1), Some(SetReady(0)));
    u := Moves(o, s3, s3.(states := s3.states[0 := Ready]), rest, t, SetReady(0), None);
  }

  /** A producer allocates the block and hands it to one consumer. */
  lemma Produces(o: State, s: State, rest: map<nat, Op>, t: nat) returns (u: State)
    requires From(o, s) && IsFree(s) && t !in rest && s.threads == rest
    ensures From(o, u) && IsHeld(u, s.head.tag + 1) && u.zeroed == s.zeroed && u.threads == rest
  {
    var gen := s.head.tag + 1;
    var s1 := PopsBlock(o, s, rest, t);
    var s2 := CountsBlock(o, s1, rest, t, gen);
    var s3 := MarksBlock(o, s2, rest, t, gen);
    u := SubmitsBlock(o, s3, rest, t);
  }

  // ---------------------------------------------------------------- release

  /** The exchange of a release that finds one reference. */
  lemma TakesLast(o: State, s: State, rest: map<nat, Op>, t: nat, gen: nat) returns (u: State)
    requires From(o, s) && IsHeld(s, gen) && t !in rest && s.threads == rest[t := DecLoad(0)]
    ensures From(o, u) && OneBlock(u) && u.list == s.list && u.head == s.head && u.gens == s.gens
    ensures u.zeroed == s.zeroed + [Event(gen, 0, t)] && u.threads == rest[t := SetFree(0)]
  {
    var s1 := Moves(o, s, s, rest, t, DecLoad(0), Some(DecExchange(0, 1)));
    u := Moves(o, s1, s1.(refs := s1.refs[0 := 0], zeroed := s1.zeroed + [Event(gen, 0, t)]), rest, t,
               DecExchange(0, 1), Some(SetFree(0)));
  }

  lemma UncountsBlock(o: State, s: State, rest: map<nat, Op>, t: nat) returns (u: State)
    requires From(o, s) && OneBlock(s) && t !in rest && s.threads == rest[t := SetFree(0)]
    ensures From(o, u) && SameList(s, u) && u.threads == rest[t := PushLoad(0)]
  {
    var s1 := Moves(o, s, s.(states := s.states[0 := Free]), rest, t, SetFree(0), Some(DecAlloc(0)));
    u := Moves(o, s1, s1.(allocCount := s1.allocCount - 1), rest, t, DecAlloc(0), Some(PushLoad(0)));
  }

  lemma LinksBlock(o: State, s: State, rest: map<nat, Op>, t: nat) returns (u: State)
    requires From(o, s) && OneBlock(s) && s.head.index == None && t !in rest && s.threads == rest[t := PushLoad(0)]
    ensures From(o, u) && u == s.(next := s.next[0 := None], threads := rest[t := PushExchange(0, s.head)])
  {
    var s1 := Moves(o, s, s, rest, t, PushLoad(0), Some(PushNext(0, s.head)));
    u := Moves(o, s1, s1.(next := s1.next[0 := None]), rest, t, PushNext(0, s.head), Some(PushExchange(0, s.head)));
  }

  lemma PushesBlock(o: State, s: State, rest: map<nat, Op>, t: nat) returns (u: State)
    requires From(o, s) && OneBlock(s) && s.list == [] && s.head.index == None
    requires t !in rest && s.threads == rest[t := PushLoad(0)]
    ensures From(o, u) && IsFree(u) && u.head.tag == s.head.tag + 1 && u.zeroed == s.zeroed && u.threads == rest
  {
    var h := s.head;
    var s1 := LinksBlock(o, s, rest, t);
    var s2 := Moves(o, s1, s1.(head := Head(Some(0), h.tag + 1), list := [0] + s1.list,
                               pushed := s1.pushed + [Event(s1.incarnation[0], 0, t)]),
                    rest, t, PushExchange(0, h), Some(IncFree));
    u := Moves(o, s2, s2.(freeCount := s2.freeCount + 1), rest, t, IncFree, None);
  }

  /** The consumer releases the block, which is recycled. */
  lemma Consumes(o: State, s: State, rest: map<nat, Op>, t: nat, gen: nat) returns (u: State)
    requires From(o, s) && IsHeld(s, gen) && t !in rest && s.threads == rest
    ensures From(o, u) && IsFree(u) && u.head.tag == gen + 1
    ensures u.zeroed == s.zeroed + [Event(gen, 0, t)] && u.threads == rest
  {
    var s1 := Takes(o, s, Start(t, Release(0)));
    var s2 := TakesLast(o, s1, rest, t, gen);
    var s3 := UncountsBlock(o, s2, rest, t);
    u := PushesBlock(o, s3, rest, t);
  }

  // ---------------------------------------------------------------- the race

  /** The first producer is done, and thread 1 is about to check its handle. */
  lemma HandleIsChecked() returns (s: State)
    ensures From(Init(1), s) && IsHeld(s, 1) && s.threads == map[1 := CheckGeneration(0, 1)] && s.zeroed == []
  {
    var o := Init(1);
    assert o == Run(o, []);
    var held := Produces(o, o, map[], 0);
    s := Takes(o, held, Start(1, ReleaseChecked(0, 1)));
  }

  /** Recycled, handed out again, and released by the thread that had passed the check. */
  lemma ReleasedTooLate(s: State) returns (u: State)
    requires IsHeld(s, 1) && s.threads == map[1 := DecLoad(0)] && s.zeroed == []
    ensures From(s, u) && OneBlock(u) && u.gens[0] == 3 && u.threads == map[1 := SetFree(0)]
    ensures u.zeroed == [Event(1, 0, 2), Event(3, 0, 1)]
  {
    assert s == Run(s, []);
    var free := Consumes(s, s, s.threads, 2, 1);
    var again := Produces(s, free, s.threads, 3);
    u := TakesLast(s, again, map[], 1, 3);
  }

  /** Thread 1 releases the block with a handle of generation 1 and passes the check. Thread 2 gives the same reference
      back, so that the block is recycled, and thread 3 hands it out again in generation 3. Then thread 1 goes on: it
      takes the only reference of generation 3, and recycles a block that another consumer holds. */
  lemma CheckedReleaseTakesAnothers() returns (checked: State, passed: State, u: State)
    ensures Reachable(1, checked) && checked.threads == map[1 := CheckGeneration(0, 1)]
    ensures Enabled(checked, Advance(1, false, true)) && passed == Step(checked, Advance(1, false, true))
    ensures From(passed, u) && OneBlock(u) && u.gens[0] == 3 && u.threads == map[1 := SetFree(0)]
    ensures u.zeroed == [Event(1, 0, 2), Event(3, 0, 1)]
  {
    checked := HandleIsChecked();
    passed := Step(checked, Advance(1, false, true));
    assert passed.threads == map[1 := DecLoad(0)];
    u := ReleasedTooLate(passed);
  }
}
