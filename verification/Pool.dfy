/** The block pool under whole calls: what each operation of the dispatcher does to
    it, and what every sequence of operations keeps. */
module Pool {
  import opened Options
  import opened BlockStates

  datatype Block = Block(refs: nat, state: BlockState, gen: nat, payload: nat, deadline: nat, next: Option<nat>)

  /** `list` is the free list spelled out; the operations only use head and links. */
  datatype Pool = Pool(blocks: seq<Block>, head: Option<nat>, tag: nat, freeCount: int, allocCount: int,
                       list: seq<nat>)
  {
    function Size(): nat { |blocks| }

    function With(b: nat, block: Block): Pool
      requires b < Size()
    {
      this.(blocks := blocks[b := block])
    }

    function WithRefs(b: nat, refs: nat): Pool
      requires b < Size()
    {
      With(b, blocks[b].(refs := refs))
    }

    predicate Live(b: nat) { b < Size() && blocks[b].state == Ready && blocks[b].refs > 0 }
  }

  // ---------------------------------------------------------------- invariant

  /** Head and links spell out the list of exactly the Free blocks, the counters count
      it, resting blocks are Free, Allocated or Ready, referenced exactly when Ready,
      and no generation exceeds the tag. */
  ghost predicate Valid(p: Pool) {
    && Chain(p)
    && (forall b :: 0 <= b < p.Size() ==> Resting(p.blocks[b], p.tag) && (p.blocks[b].state == Free <==> b in p.list))
    && p.freeCount == |p.list| && p.allocCount == p.Size() - |p.list|
  }

  ghost predicate Chain(p: Pool) {
    && Distinct(p.list)
    && (forall i :: 0 <= i < |p.list| ==> p.list[i] < p.Size())
    && p.head == After(p.list, 0)
    && (forall i :: 0 <= i < |p.list| ==> Linked(p, i))
  }

  /** The link of the `i`-th listed block leads to the next one. */
  ghost predicate Linked(p: Pool, i: nat) {
    i < |p.list| && p.list[i] < p.Size() && p.blocks[p.list[i]].next == After(p.list, i + 1)
  }

  predicate Resting(block: Block, tag: nat) {
    && block.state in {Free, Allocated, Ready}
    && (block.refs > 0 <==> block.state == Ready)
    && block.gen <= tag
  }

  // ---------------------------------------------------------------- operations

  function Renewed(block: Block, gen: nat): Block {
    block.(refs := 0, state := Allocated, gen := gen, payload := 0, deadline := 0)
  }

  /** Pop the first free block and start a new generation of it. */
  function Alloc(p: Pool): Pool {
    if p.head.None? || p.head.value >= p.Size() then p else
      var b := p.head.value;
      p.(blocks := p.blocks[b := Renewed(p.blocks[b], p.tag + 1)], head := p.blocks[b].next, tag := p.tag + 1,
         freeCount := p.freeCount - 1, allocCount := p.allocCount + 1, list := if p.list == [] then [] else p.list[1..])
  }

  /** Push a block onto the free list. */
  function Recycle(p: Pool, b: nat): Pool
    requires b < p.Size()
  {
    p.(blocks := p.blocks[b := p.blocks[b].(state := Free, next := p.head)], head := Some(b), tag := p.tag + 1,
       freeCount := p.freeCount + 1, allocCount := p.allocCount - 1, list := [b] + p.list)
  }

  /** Take all references and recycle: what the last release, a timeout or a forced
      cleanup amounts to. */
  function Reclaim(p: Pool, b: nat): Pool
    requires b < p.Size()
  {
    Recycle(p.WithRefs(b, 0), b)
  }

  /** Give back one reference; the last one recycles; without any, nothing happens. */
  function ReleaseOne(p: Pool, b: nat): Pool
    requires b < p.Size()
  {
    if p.blocks[b].refs == 0 then p
    else if p.blocks[b].refs == 1 then Reclaim(p, b)
    else p.WithRefs(b, p.blocks[b].refs - 1)
  }

  function ReleaseChecked(p: Pool, b: nat, gen: nat): Pool
    requires b < p.Size()
  {
    if gen != p.blocks[b].gen then p else ReleaseOne(p, b)
  }

  /** Hand an allocated block to `refs` consumers. */
  function Publish(p: Pool, b: nat, payload: nat, deadline: nat, refs: nat): Pool
    requires b < p.Size()
  {
    p.With(b, p.blocks[b].(payload := payload, deadline := deadline, refs := refs, state := Ready))
  }

  predicate Expired(block: Block, now: nat) {
    block.state == Ready && block.deadline != 0 && now > block.deadline
  }

  ghost function ExpiredBlocks(p: Pool, now: nat): set<nat> {
    set b | 0 <= b < p.Size() && Expired(p.blocks[b], now)
  }

  /** The deadline of a block submitted at `now`, in microseconds; 0 means none. */
  function DeadlineOf(timeoutMs: nat, now: nat): nat { if timeoutMs > 0 then now + timeoutMs * 1000 else 0 }

  /** Block `i` reclaimed if it is chosen and referenced. */
  function SweepOne(p: Pool, chosen: set<nat>, i: nat): (r: Pool)
    requires i < p.Size()
    ensures r.Size() == p.Size()
  {
    if i in chosen && p.blocks[i].refs > 0 then Reclaim(p, i) else p
  }

  /** Reclaim, in index order from `i`, the referenced blocks that `chosen` selects. */
  function Sweep(p: Pool, chosen: set<nat>, i: nat): (r: Pool)
    ensures r.Size() == p.Size()
    decreases p.Size() - i
  {
    if i >= p.Size() then p else Sweep(SweepOne(p, chosen, i), chosen, i + 1)
  }

  // ---------------------------------------------------------------- what the operations keep

  /** Allocation fails exactly on an empty list, and otherwise takes its first block. */
  lemma AllocTakesTheFirst(p: Pool)
    requires Valid(p)
    ensures p.list == [] ==> Alloc(p) == p
    ensures p.list != [] ==>
              && p.head == Some(p.list[0])
              && Alloc(p) == p.(blocks := p.blocks[p.list[0] := Renewed(p.blocks[p.list[0]], p.tag + 1)],
                                head := After(p.list, 1), tag := p.tag + 1, freeCount := p.freeCount - 1,
                                allocCount := p.allocCount + 1, list := p.list[1..])
  {
    if p.list != [] {
      assert Linked(p, 0);
    }
  }

  lemma AllocChain(p: Pool, q: Pool, b: nat)
    requires Chain(p) && p.list != [] && b == p.list[0] && q == Alloc(p) && q.list == p.list[1..] && b !in q.list
    ensures Chain(q)
  {
    assert Linked(p, 0);
    forall i | 0 <= i < |q.list| ensures Linked(q, i) {
      assert Linked(p, i + 1) && q.list[i] == p.list[i + 1];
    }
  }

  lemma AllocKeeps(p: Pool)
    requires Valid(p)
    ensures Valid(Alloc(p))
  {
    AllocTakesTheFirst(p);
    if p.list != [] {
      var b, q := p.list[0], Alloc(p);
      assert p.list == [b] + q.list;
      assert b !in q.list;
      AllocChain(p, q, b);
      forall c | 0 <= c < q.Size() ensures Resting(q.blocks[c], q.tag) && (q.blocks[c].state == Free <==> c in q.list) {
        assert Resting(p.blocks[c], p.tag);
      }
    }
  }

  lemma ReclaimKeeps(p: Pool, b: nat)
    requires Valid(p) && p.Live(b)
    ensures Valid(Reclaim(p, b))
  {
    var q := Reclaim(p, b);
    assert b !in p.list;
    forall i | 0 <= i < |q.list| ensures Linked(q, i) {
      if i > 0 {
        assert Linked(p, i - 1) && q.list[i] == p.list[i - 1];
      }
    }
  }

  lemma RefsKeep(p: Pool, b: nat, refs: nat)
    requires Valid(p) && p.Live(b) && refs > 0
    ensures Valid(p.WithRefs(b, refs)) && p.WithRefs(b, refs).Live(b)
  {
    var q := p.WithRefs(b, refs);
    forall i | 0 <= i < |q.list| ensures Linked(q, i) {
      assert Linked(p, i) && p.list[i] != b;
    }
  }

  /** Adding references keeps the pool valid exactly if the block has some already, or none are added. */
  lemma AddedRefsKeepIff(p: Pool, b: nat, count: nat)
    requires Valid(p) && b < p.Size()
    ensures Valid(p.WithRefs(b, p.blocks[b].refs + count)) <==> p.Live(b) || count == 0
  {
    var q := p.WithRefs(b, p.blocks[b].refs + count);
    assert Resting(p.blocks[b], p.tag);
    if p.Live(b) {
      RefsKeep(p, b, p.blocks[b].refs + count);
    } else if count == 0 {
      assert q.blocks == p.blocks;
    } else {
      assert !Resting(q.blocks[b], q.tag);
    }
  }

  lemma ReleaseKeeps(p: Pool, b: nat)
    requires Valid(p) && b < p.Size()
    ensures Valid(ReleaseOne(p, b))
  {
    if p.blocks[b].refs == 1 { ReclaimKeeps(p, b); }
    else if p.blocks[b].refs > 1 { RefsKeep(p, b, p.blocks[b].refs - 1); }
  }

  lemma PublishKeeps(p: Pool, b: nat, payload: nat, deadline: nat, refs: nat)
    requires Valid(p) && b < p.Size() && p.blocks[b].state == Allocated && refs > 0
    ensures Valid(Publish(p, b, payload, deadline, refs)) && Publish(p, b, payload, deadline, refs).Live(b)
  {
    var q := Publish(p, b, payload, deadline, refs);
    forall i | 0 <= i < |q.list| ensures Linked(q, i) {
      assert Linked(p, i) && p.list[i] != b;
    }
  }

  /** A block published with one reference and released is back on the list, at its front. */
  lemma PublishedOnce(p: Pool, b: nat, payload: nat, deadline: nat)
    requires b < p.Size()
    ensures var q := ReleaseOne(Publish(p, b, payload, deadline, 1), b);
            q.list == [b] + p.list && q.tag == p.tag + 1 && q.blocks[b].state == Free
  {
  }

  lemma SweepOneKeeps(p: Pool, chosen: set<nat>, i: nat)
    requires Valid(p) && i < p.Size()
    ensures Valid(SweepOne(p, chosen, i))
  {
    if i in chosen && p.blocks[i].refs > 0 {
      assert Resting(p.blocks[i], p.tag);
      ReclaimKeeps(p, i);
    }
  }

  lemma SweepTurn(p: Pool, chosen: set<nat>, i: nat, q: Pool)
    requires i < p.Size() && q == SweepOne(p, chosen, i)
    ensures Sweep(p, chosen, i) == Sweep(q, chosen, i + 1)
  {
  }

  lemma {:induction false} SweepKeeps(p: Pool, chosen: set<nat>, i: nat) returns (r: Pool)
    requires Valid(p)
    ensures r == Sweep(p, chosen, i) && Valid(r)
    decreases p.Size() - i
  {
    if i >= p.Size() {
      r := p;
    } else {
      var q := SweepOne(p, chosen, i);
      SweepTurn(p, chosen, i, q);
      SweepOneKeeps(p, chosen, i);
      r := SweepKeeps(q, chosen, i + 1);
    }
  }

  /** A sweep frees exactly the referenced blocks it was told to, and changes no other. */
  lemma {:induction false} SweepFreesTheChosen(p: Pool, chosen: set<nat>, i: nat, b: nat)
    requires b < p.Size() && (b in p.list ==> p.blocks[b].refs == 0)
    ensures var q := Sweep(p, chosen, i);
            if i <= b && b in chosen && p.blocks[b].refs > 0
            then q.blocks[b].state == Free && q.blocks[b].refs == 0 && b in q.list
            else q.blocks[b] == p.blocks[b] && (b in q.list <==> b in p.list)
    decreases p.Size() - i
  {
    if i < p.Size() {
      SweepFreesTheChosen(SweepOne(p, chosen, i), chosen, i + 1, b);
    }
  }

  // ---------------------------------------------------------------- sequences of calls

  /** Whole calls as users issue them. A block is published only while Allocated and
      references are added only while some are held; the code asserts or documents
      both. */
  datatype Call =
    | DoAlloc
    | DoPublish(b: nat, payload: nat, deadline: nat, refs: nat)
    | DoRelease(b: nat)
    | DoReleaseChecked(b: nat, gen: nat)
    | DoAddRef(b: nat, count: nat)
    | DoSweep(chosen: set<nat>)

  predicate Allowed(p: Pool, c: Call) {
    match c
    case DoAlloc => true
    case DoPublish(b, _, _, refs) => b < p.Size() && p.blocks[b].state == Allocated && refs > 0
    case DoRelease(b) => b < p.Size()
    case DoReleaseChecked(b, _) => b < p.Size()
    case DoAddRef(b, _) => b < p.Size() && p.blocks[b].refs > 0
    case DoSweep(_) => true
  }

  function Do(p: Pool, c: Call): Pool
    requires Allowed(p, c)
  {
    match c
    case DoAlloc => Alloc(p)
    case DoPublish(b, payload, deadline, refs) => Publish(p, b, payload, deadline, refs)
    case DoRelease(b) => ReleaseOne(p, b)
    case DoReleaseChecked(b, gen) => ReleaseChecked(p, b, gen)
    case DoAddRef(b, count) => p.WithRefs(b, p.blocks[b].refs + count)
    case DoSweep(chosen) => Sweep(p, chosen, 0)
  }

  /** The pool after any sequence of calls; a call that is not allowed is not made. */
  function DoAll(p: Pool, calls: seq<Call>): Pool
    decreases |calls|
  {
    if calls == [] then p
    else if Allowed(p, calls[0]) then DoAll(Do(p, calls[0]), calls[1..])
    else DoAll(p, calls[1..])
  }

  lemma CallKeeps(p: Pool, c: Call)
    requires Valid(p) && Allowed(p, c)
    ensures Valid(Do(p, c))
  {
    match c {
      case DoAlloc => AllocKeeps(p);
      case DoPublish(b, payload, deadline, refs) => PublishKeeps(p, b, payload, deadline, refs);
      case DoRelease(b) => ReleaseKeeps(p, b);
      case DoReleaseChecked(b, _) => ReleaseKeeps(p, b);
      case DoAddRef(b, count) => RefsKeep(p, b, p.blocks[b].refs + count);
      case DoSweep(chosen) => var _ := SweepKeeps(p, chosen, 0);
    }
  }

  /** Generations never go down, and only an allocation moves one. */
  lemma CallGenerations(p: Pool, c: Call, b: nat)
    requires Valid(p) && Allowed(p, c) && b < p.Size()
    ensures var q := Do(p, c);
            && q.Size() == p.Size()
            && (q.blocks[b].gen == p.blocks[b].gen
                || (c.DoAlloc? && p.list != [] && b == p.list[0] && q.blocks[b].gen == p.tag + 1 > p.blocks[b].gen))
  {
    match c {
      case DoAlloc => AllocTakesTheFirst(p);
      case DoSweep(chosen) => SweepGenerations(p, chosen, 0, b);
      case _ =>
    }
    assert Resting(p.blocks[b], p.tag);
  }

  lemma {:induction false} SweepGenerations(p: Pool, chosen: set<nat>, i: nat, b: nat)
    requires b < p.Size()
    ensures Sweep(p, chosen, i).blocks[b].gen == p.blocks[b].gen
    decreases p.Size() - i
  {
    if i < p.Size() {
      SweepGenerations(SweepOne(p, chosen, i), chosen, i + 1, b);
    }
  }

  /** Every sequence of calls keeps the pool valid and never lowers a generation. */
  lemma {:induction false} CallsKeep(p: Pool, calls: seq<Call>)
    requires Valid(p)
    ensures var q := DoAll(p, calls);
            Valid(q) && q.Size() == p.Size() && forall b :: 0 <= b < p.Size() ==> p.blocks[b].gen <= q.blocks[b].gen
    decreases |calls|
  {
    if calls != [] {
      if Allowed(p, calls[0]) {
        CallKeeps(p, calls[0]);
        forall b | 0 <= b < p.Size() ensures p.blocks[b].gen <= Do(p, calls[0]).blocks[b].gen {
          CallGenerations(p, calls[0], b);
        }
        assert Do(p, calls[0]).Size() == p.Size() by { if p.Size() > 0 { CallGenerations(p, calls[0], 0); } }
        CallsKeep(Do(p, calls[0]), calls[1..]);
      } else {
        CallsKeep(p, calls[1..]);
      }
    }
  }

  /** Take a handle (block and generation) at any time. Once the block has been
      allocated again, a checked release with that handle changes nothing, whatever
      calls were made before and after the allocation. */
  lemma StaleHandleIsHarmless(p: Pool, before: seq<Call>, after: seq<Call>, b: nat)
    requires Valid(p) && b < p.Size()
    requires var q := DoAll(p, before); q.list != [] && q.list[0] == b
    ensures var r := DoAll(Alloc(DoAll(p, before)), after);
            b < r.Size() && ReleaseChecked(r, b, p.blocks[b].gen) == r
  {
    CallsKeep(p, before);
    var q := DoAll(p, before);
    CallKeeps(q, DoAlloc);
    CallGenerations(q, DoAlloc, b);
    AllocTakesTheFirst(q);
    CallsKeep(Alloc(q), after);
  }

  // ---------------------------------------------------------------- the last reference

  function Releases(p: Pool, b: nat, k: nat): (r: Pool)
    requires b < p.Size()
    ensures r.Size() == p.Size()
  {
    if k == 0 then p else ReleaseOne(Releases(p, b, k - 1), b)
  }

  /** A block handed to `refs` consumers is theirs until the last of them has released it, which recycles it; releases
      beyond that do nothing. */
  lemma {:induction false} LastReleaseRecycles(p: Pool, b: nat, payload: nat, deadline: nat, refs: nat, k: nat)
    requires b < p.Size() && refs > 0
    ensures var q := Releases(Publish(p, b, payload, deadline, refs), b, k);
            if k < refs then q.Live(b) && q.blocks[b].refs == refs - k && q.list == p.list && q.tag == p.tag
            else q.blocks[b].state == Free && q.blocks[b].refs == 0 && q.list == [b] + p.list && q.tag == p.tag + 1
  {
    var first := Publish(p, b, payload, deadline, refs);
    if k > 0 {
      LastReleaseRecycles(p, b, payload, deadline, refs, k - 1);
      assert Releases(first, b, k) == ReleaseOne(Releases(first, b, k - 1), b);
    } else {
      assert Releases(first, b, 0) == first;
    }
  }

  // ---------------------------------------------------------------- timeouts

  /** Since block `b` was handed out in generation `gen`: it is free again, or still held as it was handed out, or
      allocated anew. */
  predicate HandedOut(p: Pool, b: nat, gen: nat, payload: nat, deadline: nat) {
    && b < p.Size() && gen <= p.blocks[b].gen
    && (p.blocks[b].gen == gen ==>
          || p.blocks[b].state == Free
          || (p.blocks[b].state == Ready && p.blocks[b].payload == payload && p.blocks[b].deadline == deadline))
  }

  lemma HandedOutStays(p: Pool, c: Call, b: nat, gen: nat, payload: nat, deadline: nat)
    requires Valid(p) && Allowed(p, c) && HandedOut(p, b, gen, payload, deadline)
    ensures HandedOut(Do(p, c), b, gen, payload, deadline)
  {
    CallGenerations(p, c, b);
    assert Resting(p.blocks[b], p.tag);
    match c {
      case DoAlloc => AllocTakesTheFirst(p);
      case DoSweep(chosen) => SweepFreesTheChosen(p, chosen, 0, b);
      case _ =>
    }
  }

  lemma {:induction false} HandedOutLasts(p: Pool, calls: seq<Call>, b: nat, gen: nat, payload: nat, deadline: nat)
    requires Valid(p) && HandedOut(p, b, gen, payload, deadline)
    ensures HandedOut(DoAll(p, calls), b, gen, payload, deadline)
    decreases |calls|
  {
    if calls != [] {
      if Allowed(p, calls[0]) {
        CallKeeps(p, calls[0]);
        HandedOutStays(p, calls[0], b, gen, payload, deadline);
        HandedOutLasts(Do(p, calls[0]), calls[1..], b, gen, payload, deadline);
      } else {
        HandedOutLasts(p, calls[1..], b, gen, payload, deadline);
      }
    }
  }

  /** A scan frees exactly the referenced blocks whose deadline, if they have one, has passed. */
  lemma ScanFreesTheLate(p: Pool, now: nat, b: nat)
    requires Valid(p) && b < p.Size()
    ensures var q, block := Sweep(p, ExpiredBlocks(p, now), 0), p.blocks[b];
            if block.refs > 0 && 0 < block.deadline < now then q.blocks[b].state == Free && b in q.list
            else q.blocks[b] == block
  {
    assert Resting(p.blocks[b], p.tag);
    SweepFreesTheChosen(p, ExpiredBlocks(p, now), 0, b);
  }

  /** A block submitted and held ever since, whatever else was done in the meantime, is freed by a scan exactly if there
      is a timeout and it has passed; otherwise the scan leaves it as it is. */
  lemma TimedOutIff(p: Pool, b: nat, payload: nat, refs: nat, timeoutMs: nat, submitted: nat, calls: seq<Call>,
                    now: nat)
    requires Valid(p) && b < p.Size() && p.blocks[b].state == Allocated && refs > 0
    requires var r := DoAll(Publish(p, b, payload, DeadlineOf(timeoutMs, submitted), refs), calls);
             r.Live(b) && r.blocks[b].gen == p.blocks[b].gen
    ensures var r := DoAll(Publish(p, b, payload, DeadlineOf(timeoutMs, submitted), refs), calls);
            var q := Sweep(r, ExpiredBlocks(r, now), 0);
            && r.blocks[b].payload == payload && b < q.Size()
            && (q.blocks[b].state == Free <==> timeoutMs > 0 && now > submitted + 1000 * timeoutMs)
            && (q.blocks[b].state != Free ==> q.blocks[b] == r.blocks[b])
  {
    var deadline := DeadlineOf(timeoutMs, submitted);
    PublishKeeps(p, b, payload, deadline, refs);
    var first := Publish(p, b, payload, deadline, refs);
    HandedOutLasts(first, calls, b, p.blocks[b].gen, payload, deadline);
    CallsKeep(first, calls);
    ScanFreesTheLate(DoAll(first, calls), now, b);
  }

  /** A fresh pool: all blocks free, in index order. */
  function NewPool(blocks: nat): Pool {
    Pool(seq(blocks, (i: nat) => Block(0, Free, 0, 0, 0, if i + 1 < blocks then Some(i + 1) else None)),
         if blocks > 0 then Some(0) else None, 0, blocks, 0, seq(blocks, i => i))
  }

  lemma NewPoolIsValid(blocks: nat)
    ensures Valid(NewPool(blocks))
  {
    var p := NewPool(blocks);
    forall b | 0 <= b < p.Size() ensures b in p.list {
      assert p.list[b] == b;
    }
  }
}
