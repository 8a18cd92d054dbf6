/** Step model of the shared block pool: the tagged free list, the reference counts
    and the reclaimers that compete for them (notify mode, where no stage adds
    references).

    Every transition is one atomic operation of one thread; memory is sequentially
    consistent, tags and generations are unbounded. */
module BlockPool {
  import opened Options
  import opened BlockStates

  /** The packed list head: index of the first free block and the ABA tag. */
  datatype Head = Head(index: Option<nat>, tag: nat)

  datatype Reclaim = ByTimeout | ByForce

  /** What a thread does next. `h` is a head value it loaded earlier, `cur` a
      reference count it loaded earlier, `gen` the generation it allocates. */
  datatype Op =
    // Alloc
    | PopLoad
    | PopNext(h: Head)
    | PopExchange(h: Head, next: Option<nat>)
    | DecFree(b: nat, gen: nat)
    | IncAlloc(b: nat, gen: nat)
    | SetAllocated(b: nat, gen: nat)
    | SetGeneration(b: nat, gen: nat)
    | ClearRefs(b: nat)
    | Holding(b: nat)
    // Submit
    | StoreRefs(b: nat, count: nat)
    | SetReady(b: nat)
    // Release, and the reaper's release on behalf of a dead consumer
    | CheckGeneration(b: nat, gen: nat)
    | DecLoad(b: nat)
    | DecExchange(b: nat, cur: nat)
    // ScanTimeout and ForceCleanup, for one block
    | CheckState(b: nat, kind: Reclaim)
    | ZeroLoad(b: nat, kind: Reclaim)
    | ZeroExchange(b: nat, cur: nat, kind: Reclaim)
    | SetFinal(b: nat, kind: Reclaim)
    // Recycle
    | SetFree(b: nat)
    | DecAlloc(b: nat)
    | PushLoad(b: nat)
    | PushNext(b: nat, h: Head)
    | PushExchange(b: nat, h: Head)
    | IncFree

  /** Block `block`, in its incarnation `gen`, was handled by thread `t`. */
  datatype Event = Event(gen: nat, block: nat, t: nat)

  /** Shared memory, the threads, and the history the properties speak about: the
      blocks of the free list in order, the incarnation each block is in, who took a
      count to zero and who pushed a block. No transition reads the history. */
  datatype State = State(
    head: Head,
    next: seq<Option<nat>>,
    refs: seq<nat>,
    states: seq<BlockState>,
    gens: seq<nat>,
    freeCount: int,
    allocCount: int,
    threads: map<nat, Op>,
    list: seq<nat>,
    incarnation: seq<nat>,
    zeroed: seq<Event>,
    pushed: seq<Event>)
  {
    function Size(): nat { |next| }

    predicate WellFormed() {
      |refs| == Size() && |states| == Size() && |gens| == Size() && |incarnation| == Size()
    }

    function Go(t: nat, next: Option<Op>): State {
      this.(threads := if next.Some? then threads[t := next.value] else threads - {t})
    }
  }

  function Init(blocks: nat): State
    requires blocks > 0
  {
    State(Head(Some(0), 0), seq(blocks, i => if i + 1 < blocks then Some(i + 1) else None), seq(blocks, i => 0),
          seq(blocks, i => Free), seq(blocks, i => 0), blocks, 0, map[],
          seq(blocks, i => i), seq(blocks, i => 0), [], [])
  }

  /** The block an operation works on, if it names one. */
  function Target(op: Op): Option<nat> {
    match op
    case PopLoad => None
    case PopNext(h) => h.index
    case PopExchange(h, _) => h.index
    case IncFree => None
    case _ => Some(op.b)
  }

  predicate InRange(s: State, op: Op) {
    && (op.PopNext? || op.PopExchange? ==> op.h.index.Some?)
    && (Target(op).Some? ==> Target(op).value < s.Size())
  }

  // ---------------------------------------------------------------- operations

  /** The head exchange happens: the head still is the loaded one and the weak
      exchange does not fail spuriously. */
  predicate PopSucceeds(s: State, op: Op, weak: bool) { op.PopExchange? && s.head == op.h && !weak }
  predicate PushSucceeds(s: State, op: Op, weak: bool) { op.PushExchange? && s.head == op.h && !weak }

  predicate RefExchange(s: State, op: Op, weak: bool)
    requires s.WellFormed() && InRange(s, op)
  {
    (op.DecExchange? || op.ZeroExchange?) && s.refs[op.b] == op.cur && !weak
  }

  /** The exchange takes the count of a block from positive to zero. */
  predicate Zeroes(s: State, op: Op, weak: bool)
    requires s.WellFormed() && InRange(s, op)
  {
    RefExchange(s, op, weak) && op.cur > 0 && (op.ZeroExchange? || op.cur == 1)
  }

  function Effect(s: State, t: nat, op: Op, weak: bool): State
    requires s.WellFormed() && InRange(s, op)
  {
    match op
    case PopExchange(h, next) =>
      if PopSucceeds(s, op, weak) then
        s.(head := Head(next, h.tag + 1), list := if s.list == [] then [] else s.list[1..],
           incarnation := s.incarnation[h.index.value := h.tag + 1])
      else s
    case DecFree(_, _) => s.(freeCount := s.freeCount - 1)
    case IncAlloc(_, _) => s.(allocCount := s.allocCount + 1)
    case SetAllocated(b, _) => s.(states := s.states[b := Allocated])
    case SetGeneration(b, gen) => s.(gens := s.gens[b := gen])
    case ClearRefs(b) => s.(refs := s.refs[b := 0])
    case StoreRefs(b, count) => s.(refs := s.refs[b := count])
    case SetReady(b) => s.(states := s.states[b := Ready])
    case DecExchange(b, cur) => if RefExchange(s, op, weak) && cur > 0 then CountDown(s, t, b, cur - 1) else s
    case ZeroExchange(b, cur, _) => if RefExchange(s, op, weak) && cur > 0 then CountDown(s, t, b, 0) else s
    case SetFinal(b, kind) => s.(states := s.states[b := if kind.ByTimeout? then Timeout else Error])
    case SetFree(b) => s.(states := s.states[b := Free])
    case DecAlloc(_) => s.(allocCount := s.allocCount - 1)
    case PushNext(b, h) => s.(next := s.next[b := h.index])
    case PushExchange(b, h) =>
      if PushSucceeds(s, op, weak) then
        s.(head := Head(Some(b), h.tag + 1), list := [b] + s.list,
           pushed := s.pushed + [Event(s.incarnation[b], b, t)])
      else s
    case IncFree => s.(freeCount := s.freeCount + 1)
    case _ => s
  }

  lemma EffectThreads(s: State, t: nat, op: Op, weak: bool)
    requires s.WellFormed() && InRange(s, op)
    ensures Effect(s, t, op, weak).threads == s.threads
  {}

  /** Store a lower reference count; reaching zero is recorded. */
  function CountDown(s: State, t: nat, b: nat, count: nat): State
    requires s.WellFormed() && b < s.Size()
  {
    var s' := s.(refs := s.refs[b := count]);
    if count == 0 then s'.(zeroed := s.zeroed + [Event(s.incarnation[b], b, t)]) else s'
  }

  /** A count loaded or reloaded as zero ends the loop: somebody else reclaimed. */
  function Decrement(b: nat, cur: nat): Option<Op> {
    if cur > 0 then Some(DecExchange(b, cur)) else None
  }

  function Zero(b: nat, cur: nat, kind: Reclaim): Option<Op> {
    if cur > 0 then Some(ZeroExchange(b, cur, kind)) else None
  }

  /** An empty list ends the allocation. */
  function Pop(h: Head): Option<Op> {
    if h.index.Some? then Some(PopNext(h)) else None
  }

  /** `None` when the thread's call returns. `due` stands for the deadline or the
      caller's predicate. */
  function Next(s: State, op: Op, weak: bool, due: bool): Option<Op>
    requires s.WellFormed() && InRange(s, op)
  {
    match op
    case PopLoad => Pop(s.head)
    case PopNext(h) => Some(PopExchange(h, s.next[h.index.value]))
    case PopExchange(h, _) =>
      if PopSucceeds(s, op, weak) then Some(DecFree(h.index.value, h.tag + 1)) else Pop(s.head)
    case DecFree(b, gen) => Some(IncAlloc(b, gen))
    case IncAlloc(b, gen) => Some(SetAllocated(b, gen))
    case SetAllocated(b, gen) => Some(SetGeneration(b, gen))
    case SetGeneration(b, _) => Some(ClearRefs(b))
    case ClearRefs(b) => Some(Holding(b))
    case Holding(_) => Some(op)
    case StoreRefs(b, _) => Some(SetReady(b))
    case SetReady(_) => None
    case CheckGeneration(b, gen) => if gen == s.gens[b] then Some(DecLoad(b)) else None
    case DecLoad(b) => Decrement(b, s.refs[b])
    case DecExchange(b, cur) =>
      if RefExchange(s, op, weak) then (if cur == 1 then Some(SetFree(b)) else None) else Decrement(b, s.refs[b])
    case CheckState(b, kind) =>
      if (s.states[b].Ready? || s.states[b].Processing?) && due then Some(ZeroLoad(b, kind)) else None
    case ZeroLoad(b, kind) => Zero(b, s.refs[b], kind)
    case ZeroExchange(b, _, kind) =>
      if RefExchange(s, op, weak) then Some(SetFinal(b, kind)) else Zero(b, s.refs[b], kind)
    case SetFinal(b, _) => Some(SetFree(b))
    case SetFree(b) => Some(DecAlloc(b))
    case DecAlloc(b) => Some(PushLoad(b))
    case PushLoad(b) => Some(PushNext(b, s.head))
    case PushNext(b, h) => Some(PushExchange(b, h))
    case PushExchange(b, _) => if PushSucceeds(s, op, weak) then Some(IncFree) else Some(PushNext(b, s.head))
    case IncFree => None
  }

  // ---------------------------------------------------------------- runs

  /** Calls a thread may start at any time, on any block, whether or not it has any
      business with it. */
  datatype Request = Alloc | Release(b: nat) | ReleaseChecked(b: nat, gen: nat) | Reclaiming(b: nat, kind: Reclaim)

  /** A thread starts a call, submits the block it holds to `count` consumers, or
      takes one step. */
  datatype Action = Start(t: nat, req: Request) | Submit(t: nat, count: nat) | Advance(t: nat, weak: bool, due: bool)

  function First(req: Request): Op {
    match req
    case Alloc => PopLoad
    case Release(b) => DecLoad(b)
    case ReleaseChecked(b, gen) => CheckGeneration(b, gen)
    case Reclaiming(b, kind) => CheckState(b, kind)
  }

  predicate Enabled(s: State, a: Action) {
    && s.WellFormed()
    && match a
       case Start(t, req) => t !in s.threads && InRange(s, First(req))
       case Submit(t, count) => t in s.threads && s.threads[t].Holding? && count > 0
       case Advance(t, _, _) => t in s.threads && InRange(s, s.threads[t])
  }

  function Step(s: State, a: Action): State
    requires Enabled(s, a)
  {
    match a
    case Start(t, req) => s.Go(t, Some(First(req)))
    case Submit(t, count) => s.Go(t, Some(StoreRefs(s.threads[t].b, count)))
    case Advance(t, weak, due) =>
      var op := s.threads[t];
      Effect(s, t, op, weak).Go(t, Next(s, op, weak, due))
  }

  /** The state after any schedule; a choice that is not enabled does nothing. */
  function Run(s: State, schedule: seq<Action>): State
    decreases |schedule|
  {
    if schedule == [] then s
    else if Enabled(s, schedule[0]) then Run(Step(s, schedule[0]), schedule[1..])
    else Run(s, schedule[1..])
  }
}
