/** The dispatcher object: whole calls on its block array, free list and pipeline. */
module Dispatcher {
  import opened Options
  import opened BlockStates
  import opened Pool
  import P = Pipeline

  /** One handler call: the stage, the block it was given, and at that moment the
      references of the block, the depth of nested stage executions and the list tag,
      which every recycling advances. */
  datatype HandlerCall = HandlerCall(stage: nat, block: nat, refs: nat, depth: nat, tag: nat)

  ghost function StagesOf(calls: seq<HandlerCall>): seq<nat> {
    seq(|calls|, i requires 0 <= i < |calls| => calls[i].stage)
  }

  /** `now` extends `was` by handler calls of `stages`, in that order, all for block `b`
      while it was referenced, at a nesting depth of at most `limit`, and before
      anything was recycled since the tag was `tag`. */
  ghost predicate Called(was: seq<HandlerCall>, now: seq<HandlerCall>, b: nat, stages: seq<nat>, limit: nat, tag: nat) {
    && was <= now
    && StagesOf(now[|was|..]) == stages
    && forall i :: |was| <= i < |now| ==>
         now[i].block == b && now[i].refs > 0 && now[i].depth <= limit && now[i].tag == tag
  }

  lemma CalledInTurn(was: seq<HandlerCall>, mid: seq<HandlerCall>, now: seq<HandlerCall>, b: nat,
                     first: seq<nat>, second: seq<nat>, limit: nat, tag: nat)
    requires Called(was, mid, b, first, limit, tag) && Called(mid, now, b, second, limit, tag)
    ensures Called(was, now, b, first + second, limit, tag)
  {
    assert now[|was|..] == mid[|was|..] + now[|mid|..];
  }

  /** The references around one stage: with `m` more than needed below, each successor
      in turn gives back one. */
  lemma RefsInTurn(p: Pool, b: nat, m: nat)
    requires p.Live(b)
    ensures p.WithRefs(b, p.blocks[b].refs) == p
    ensures m > 0 ==> ReleaseOne(p.WithRefs(b, m + 1), b) == p.WithRefs(b, m)
  {
    assert p.blocks[b := p.blocks[b]] == p.blocks;
  }

  class DataDispatcher {
    const blocks: array<Block>
    var freeHead: Option<nat>
    var tag: nat
    var freeCount: int
    var allocCount: int
    var pipeline: P.Pipeline
    const timeoutMs: nat
    var handlerCalls: seq<HandlerCall>
    ghost var list: seq<nat>

    /** The pool this object represents. */
    ghost function Abs(): Pool
      reads this, blocks
    {
      Pool(blocks[..], freeHead, tag, freeCount, allocCount, list)
    }

    ghost predicate Ok()
      reads this, blocks
    {
      Valid(Abs()) && P.WellBuilt(pipeline)
    }

    constructor (size: nat, timeoutMs: nat)
      ensures Ok() && Abs() == NewPool(size) && pipeline == P.Pipeline([], -1) && handlerCalls == [] && fresh(blocks)
      ensures this.timeoutMs == timeoutMs
    {
      blocks := new Block[size](
        i requires 0 <= i => Block(0, Free, 0, 0, 0, if i + 1 < size then Some(i + 1) else None));
      freeHead := if size > 0 then Some(0) else None;
      tag, freeCount, allocCount := 0, size, 0;
      pipeline, handlerCalls := P.EMPTY, [];
      this.timeoutMs := timeoutMs;
      list := seq(size, i => i);
      new;
      assert blocks[..] == NewPool(size).blocks;
      NewPoolIsValid(size);
    }

    // -------------------------------------------------------------- configuration

    /** The new stage's index, or -1 when the pipeline is full. */
    method DoAddStage(hasHandler: bool, maxStages: nat) returns (stage: int)
      requires Ok()
      modifies this`pipeline
      ensures Ok() && pipeline.entry == old(pipeline).entry
      ensures stage == if |old(pipeline).stages| < maxStages then |old(pipeline).stages| else -1
      ensures stage >= 0 ==>
                && |pipeline.stages| == stage + 1 && pipeline.stages[stage] == P.Stage(hasHandler, [])
                && forall i :: 0 <= i < stage ==> pipeline.stages[i] == old(pipeline).stages[i]
      ensures stage < 0 ==> pipeline == old(pipeline)
    {
      if |pipeline.stages| >= maxStages {
        return -1;
      }
      stage := |pipeline.stages|;
      pipeline := pipeline.(stages := pipeline.stages + [P.Stage(hasHandler, [])]);
    }

    /** Out-of-range indices and a full successor list are refused; the same edge may be added again. */
    method DoAddEdge(from: int, to: int, maxEdges: nat) returns (ok: bool)
      requires Ok()
      modifies this`pipeline
      ensures Ok() && pipeline.entry == old(pipeline).entry
      ensures var n := |old(pipeline).stages|;
              ok <==> 0 <= from < n && 0 <= to < n && |old(pipeline).stages[from].successors| < maxEdges
      ensures ok ==>
                && P.EdgeAdded(old(pipeline), pipeline, from, to)
                && pipeline.stages[from].successors == old(pipeline).stages[from].successors + [to]
                && pipeline.stages[from].hasHandler == old(pipeline).stages[from].hasHandler
                && forall i :: 0 <= i < |pipeline.stages| && i != from ==> pipeline.stages[i] == old(pipeline).stages[i]
      ensures !ok ==> pipeline == old(pipeline)
    {
      var n := |pipeline.stages|;
      if from < 0 || to < 0 || from >= n || to >= n || |pipeline.stages[from].successors| >= maxEdges {
        return false;
      }
      var stage := pipeline.stages[from];
      pipeline := pipeline.(stages := pipeline.stages[from := stage.(successors := stage.successors + [to])]);
      return true;
    }

    method DoSetEntryStage(stage: int)
      requires Ok()
      modifies this`pipeline
      ensures Ok() && pipeline == old(pipeline).(entry := stage)
    {
      pipeline := pipeline.(entry := stage);
    }

    // -------------------------------------------------------------- states

    /** Every state change goes through here; the transition table must allow it. */
    method SetState(b: nat, s: BlockState)
      requires b < blocks.Length && IsValidTransition(blocks[b].state, s)
      modifies blocks
      ensures blocks[..] == old(blocks[..])[b := old(blocks[b]).(state := s)]
    {
      blocks[b] := blocks[b].(state := s);
    }

    /** Push block `b` onto the free list. */
    method DoRecycle(b: nat)
      requires b < blocks.Length && IsValidTransition(blocks[b].state, Free)
      modifies this, blocks
      ensures Abs() == Recycle(old(Abs()), b)
      ensures pipeline == old(pipeline) && handlerCalls == old(handlerCalls)
    {
      SetState(b, Free);
      allocCount := allocCount - 1;
      blocks[b] := blocks[b].(next := freeHead);
      freeHead, tag := Some(b), tag + 1;
      freeCount := freeCount + 1;
      list := [b] + list;
      assert blocks[..] == Recycle(old(Abs()), b).blocks;
    }

    // -------------------------------------------------------------- producers

    method DoAlloc() returns (r: Option<nat>)
      requires Ok()
      modifies this, blocks
      ensures Ok() && Abs() == Alloc(old(Abs()))
      ensures r == if old(list) == [] then None else Some(old(list)[0])
      ensures r.Some? ==> r.value < blocks.Length && blocks[r.value].gen > old(blocks[r.value].gen)
      ensures pipeline == old(pipeline) && handlerCalls == old(handlerCalls)
    {
      ghost var p := Abs();
      AllocTakesTheFirst(p);
      AllocKeeps(p);
      if freeHead.None? {
        return None;
      }
      var b := freeHead.value;
      assert b in list && Resting(p.blocks[b], p.tag);
      Pop(b);
      return Some(b);
    }

    /** Unlink the head block and start its next generation. */
    method Pop(b: nat)
      requires freeHead == Some(b) && b < blocks.Length && blocks[b].state == Free && list != []
      modifies this, blocks
      ensures Abs() == Alloc(old(Abs()))
      ensures pipeline == old(pipeline) && handlerCalls == old(handlerCalls)
    {
      var gen, next := tag + 1, blocks[b].next;
      freeHead, tag := next, tag + 1;
      freeCount := freeCount - 1;
      allocCount := allocCount + 1;
      SetState(b, Allocated);
      blocks[b] := blocks[b].(gen := gen, payload := 0, deadline := 0, refs := 0);
      list := list[1..];
      assert blocks[..] == Alloc(old(Abs())).blocks;
    }

    // -------------------------------------------------------------- consumers

    /** Give back one reference. Only a Ready block has references, so recycling it
        with the last one is a legal state change. */
    method DropRef(b: nat) returns (last: bool)
      requires b < blocks.Length && (blocks[b].refs > 0 ==> blocks[b].state == Ready)
      modifies this, blocks
      ensures Abs() == ReleaseOne(old(Abs()), b)
      ensures last == (old(blocks[b].refs) == 1)
      ensures pipeline == old(pipeline) && handlerCalls == old(handlerCalls)
    {
      var cur := blocks[b].refs;
      if cur == 0 {
        return false;
      }
      blocks[b] := blocks[b].(refs := cur - 1);
      assert Abs() == old(Abs()).WithRefs(b, cur - 1);
      if cur == 1 {
        DoRecycle(b);
        return true;
      }
      return false;
    }

    /** Take more references of a block. */
    method TakeRefs(b: nat, count: nat)
      requires b < blocks.Length
      modifies blocks
      ensures Abs() == old(Abs()).WithRefs(b, old(blocks[b].refs) + count)
    {
      blocks[b] := blocks[b].(refs := blocks[b].refs + count);
      assert Abs() == old(Abs()).WithRefs(b, old(blocks[b].refs) + count);
    }

    /** True exactly for the last reference, which recycles the block. */
    method DoRelease(b: nat) returns (last: bool)
      requires Ok() && b < blocks.Length
      modifies this, blocks
      ensures Ok() && Abs() == ReleaseOne(old(Abs()), b)
      ensures last == (old(blocks[b].refs) == 1)
      ensures if last then blocks[b].state == Free && list == [b] + old(list)
              else blocks[b].refs == (if old(blocks[b].refs) > 0 then old(blocks[b].refs) - 1 else 0)
                   && blocks[b].state == old(blocks[b].state) && list == old(list)
    {
      ReleaseKeeps(Abs(), b);
      assert Resting(Abs().blocks[b], tag);
      last := DropRef(b);
    }

    /** A handle of another generation changes nothing. */
    method DoReleaseChecked(b: nat, gen: nat) returns (last: bool)
      requires Ok() && b < blocks.Length
      modifies this, blocks
      ensures Ok() && Abs() == ReleaseChecked(old(Abs()), b, gen)
      ensures gen != old(blocks[b].gen) ==> !last && Abs() == old(Abs())
      ensures gen == old(blocks[b].gen) ==> last == (old(blocks[b].refs) == 1) && Abs() == ReleaseOne(old(Abs()), b)
    {
      if gen != blocks[b].gen {
        return false;
      }
      last := DoRelease(b);
    }

    /** References are added to any block; the pool stays valid exactly if the caller holds one already, or adds
        none. */
    method DoAddRef(b: nat, count: nat)
      requires Ok() && b < blocks.Length
      modifies blocks
      ensures Abs() == old(Abs()).WithRefs(b, old(blocks[b].refs) + count)
      ensures Ok() <==> old(Abs()).Live(b) || count == 0
    {
      AddedRefsKeepIff(Abs(), b, count);
      TakeRefs(b, count);
    }

    // -------------------------------------------------------------- pipeline

    /** Run a stage and, depth first, its successors: one call for every path to a stage with a handler. The net effect
        on the pool is that of giving back one reference. */
    method ExecuteStage(stage: nat, b: nat, depth: nat)
      requires P.WellBuilt(pipeline) && P.Acyclic(pipeline) && stage < |pipeline.stages| && Abs().Live(b)
      requires depth + P.Rank(pipeline, stage) <= |pipeline.stages|
      modifies this, blocks
      ensures pipeline == old(pipeline)
      ensures Abs() == ReleaseOne(old(Abs()), b)
      ensures Called(old(handlerCalls), handlerCalls, b, P.Preorder(pipeline, stage), |pipeline.stages|, old(tag))
      ensures P.OnePerPath(pipeline, stage, StagesOf(handlerCalls[|old(handlerCalls)|..]))
      decreases P.Rank(pipeline, stage), 2
    {
      ghost var was := handlerCalls;
      if pipeline.stages[stage].hasHandler {
        handlerCalls := handlerCalls + [HandlerCall(stage, b, blocks[b].refs, depth, tag)];
      }
      ghost var mid := handlerCalls;
      ghost var own := if pipeline.stages[stage].hasHandler then [stage] else [];
      assert Called(was, mid, b, own, |pipeline.stages|, old(tag));
      OnStageComplete(stage, b, depth);
      CalledInTurn(was, mid, handlerCalls, b, own,
                   P.PreorderFrom(pipeline, stage, 0), |pipeline.stages|, old(tag));
      P.PreorderIsEveryPath(pipeline, stage);
    }

    /** Take a reference for every successor, give back the stage's own, then run the
        successors unless that was the last reference. */
    method OnStageComplete(stage: nat, b: nat, depth: nat)
      requires P.WellBuilt(pipeline) && P.Acyclic(pipeline) && stage < |pipeline.stages| && Abs().Live(b)
      requires depth + P.Rank(pipeline, stage) <= |pipeline.stages|
      modifies this, blocks
      ensures pipeline == old(pipeline)
      ensures Abs() == ReleaseOne(old(Abs()), b)
      ensures Called(old(handlerCalls), handlerCalls, b, P.PreorderFrom(pipeline, stage, 0), |pipeline.stages|,
                     old(tag))
      decreases P.Rank(pipeline, stage), 1
    {
      ghost var p := Abs();
      var count := |pipeline.stages[stage].successors|;
      RefsInTurn(p, b, p.blocks[b].refs + count - 1);
      if count > 0 {
        TakeRefs(b, count);
      }
      var last := DropRef(b);
      if !last {
        RunSuccessors(stage, b, depth, p);
      }
    }

    /** Run all successors, each giving back one of the references taken for them. */
    method RunSuccessors(stage: nat, b: nat, depth: nat, ghost p: Pool)
      requires P.WellBuilt(pipeline) && P.Acyclic(pipeline) && stage < |pipeline.stages| && p.Live(b)
      requires depth + P.Rank(pipeline, stage) <= |pipeline.stages|
      requires var k := |pipeline.stages[stage].successors|;
               Abs() == if k > 0 then p.WithRefs(b, p.blocks[b].refs + k - 1) else ReleaseOne(p, b)
      modifies this, blocks
      ensures pipeline == old(pipeline)
      ensures Abs() == ReleaseOne(p, b)
      ensures Called(old(handlerCalls), handlerCalls, b, P.PreorderFrom(pipeline, stage, 0), |pipeline.stages|,
                     old(tag))
      decreases P.Rank(pipeline, stage), 0
    {
      var successors := pipeline.stages[stage].successors;
      ghost var was, r, k, limit := handlerCalls, p.blocks[b].refs, |successors|, |pipeline.stages|;
      for i := 0 to |successors|
        invariant pipeline == old(pipeline)
        invariant Abs() == if i < k then p.WithRefs(b, r + k - 1 - i) else ReleaseOne(p, b)
        invariant Called(was, handlerCalls, b, P.PreorderUpTo(pipeline, stage, i), limit, old(tag))
      {
        var next := successors[i];
        assert P.Edge(pipeline, stage, next);
        P.RankDecreases(pipeline, stage, next);
        RefsInTurn(p, b, r + k - 2 - i);
        ghost var mid := handlerCalls;
        ExecuteStage(next, b, depth + 1);
        CalledInTurn(was, mid, handlerCalls, b, P.PreorderUpTo(pipeline, stage, i), P.Preorder(pipeline, next), limit,
                     old(tag));
      }
      P.PreorderSplit(pipeline, stage, k);
    }

    /** Publish an allocated block and run it through the pipeline, if there is one.
        With a pipeline there is one call for every path from the entry stage to one with
        a handler, depth first, and one reference is gone afterwards; with a single
        reference the block is recycled, once, after the last handler. */
    method DoSubmit(b: nat, payload: nat, consumers: nat, now: nat) returns (executed: bool)
      requires Ok() && (P.HasEntry(pipeline) ==> P.Acyclic(pipeline))
      requires b < blocks.Length && blocks[b].state == Allocated
      modifies this, blocks
      ensures Ok() && pipeline == old(pipeline)
      ensures executed <==> 0 <= pipeline.entry < |pipeline.stages|
      ensures var refs := if consumers > 0 then consumers else 1;
              var p := Publish(old(Abs()), b, payload, DeadlineOf(timeoutMs, now), refs);
              Abs() == if executed then ReleaseOne(p, b) else p
      ensures executed ==>
                && Called(old(handlerCalls), handlerCalls, b, P.Preorder(pipeline, pipeline.entry), |pipeline.stages|,
                          old(tag))
                && P.OnePerPath(pipeline, pipeline.entry, StagesOf(handlerCalls[|old(handlerCalls)|..]))
      ensures !executed ==> handlerCalls == old(handlerCalls)
      ensures executed && consumers <= 1 ==> list == [b] + old(list) && tag == old(tag) + 1 && blocks[b].state == Free
    {
      var deadline := if timeoutMs > 0 then now + timeoutMs * 1000 else 0;
      var refs := if consumers > 0 then consumers else 1;
      ghost var was := Abs();
      ghost var p := Publish(was, b, payload, deadline, refs);
      PublishKeeps(was, b, payload, deadline, refs);
      ReleaseKeeps(p, b);
      PublishedOnce(was, b, payload, deadline);
      Hand(b, payload, deadline, refs);
      executed := P.HasEntry(pipeline);
      if executed {
        P.RankIsBelowStageCount(pipeline, pipeline.entry);
        ExecuteStage(pipeline.entry, b, 1);
      }
    }

    /** Hand the block to its consumers. */
    method Hand(b: nat, payload: nat, deadline: nat, refs: nat)
      requires b < blocks.Length && IsValidTransition(blocks[b].state, Ready)
      modifies blocks
      ensures Abs() == Publish(old(Abs()), b, payload, deadline, refs)
    {
      blocks[b] := blocks[b].(payload := payload, deadline := deadline, refs := refs);
      SetState(b, Ready);
      assert blocks[..] == Publish(old(Abs()), b, payload, deadline, refs).blocks;
    }

    // -------------------------------------------------------------- reclaiming

    /** Take all references of a block at once, if it has any, and recycle it by way of
        `via`. */
    method TryReclaim(b: nat, via: BlockState) returns (claimed: bool)
      requires b < blocks.Length && (blocks[b].refs > 0 ==> blocks[b].state == Ready) && via in {Timeout, Error}
      modifies this, blocks
      ensures claimed == (old(blocks[b].refs) > 0)
      ensures Abs() == if claimed then Reclaim(old(Abs()), b) else old(Abs())
      ensures pipeline == old(pipeline) && handlerCalls == old(handlerCalls)
    {
      var cur := blocks[b].refs;
      if cur == 0 {
        return false;
      }
      blocks[b] := blocks[b].(refs := 0);
      SetState(b, via);
      DoRecycle(b);
      return true;
    }

    /** Reclaim the expired blocks, in index order. */
    method ScanTimeout(now: nat) returns (count: nat)
      requires Ok()
      modifies this, blocks
      ensures Ok() && Abs() == Sweep(old(Abs()), ExpiredBlocks(old(Abs()), now), 0)
      ensures forall b :: 0 <= b < blocks.Length ==>
                var block := old(blocks[b]);
                if block.refs > 0 && 0 < block.deadline < now then blocks[b].state == Free else blocks[b] == block
      ensures count == freeCount - old(freeCount)
      ensures pipeline == old(pipeline) && handlerCalls == old(handlerCalls)
    {
      ghost var p, chosen := Abs(), ExpiredBlocks(Abs(), now);
      ghost var r := SweepKeeps(p, chosen, 0);
      count := 0;
      for i := 0 to blocks.Length
        invariant Sweep(Abs(), chosen, i) == r
        invariant forall j :: i <= j < blocks.Length ==> blocks[j] == p.blocks[j]
        invariant freeCount == p.freeCount + count
        invariant pipeline == old(pipeline) && handlerCalls == old(handlerCalls)
      {
        ghost var q := Abs();
        assert Resting(p.blocks[i], p.tag);
        var st := blocks[i].state;
        if (st == Processing || st == Ready) && blocks[i].deadline != 0 && now > blocks[i].deadline {
          var claimed := TryReclaim(i, Timeout);
          count := count + if claimed then 1 else 0;
        }
        SweepTurn(q, chosen, i, Abs());
      }
      forall b | 0 <= b < blocks.Length
        ensures if p.blocks[b].refs > 0 && 0 < p.blocks[b].deadline < now then r.blocks[b].state == Free
                else r.blocks[b] == p.blocks[b]
      {
        ScanFreesTheLate(p, now, b);
      }
    }

    /** Reclaim the referenced blocks that the caller selects, in index order. */
    method ForceCleanup(selected: set<nat>) returns (count: nat)
      requires Ok()
      modifies this, blocks
      ensures Ok() && Abs() == Sweep(old(Abs()), selected, 0)
      ensures count == freeCount - old(freeCount)
      ensures pipeline == old(pipeline) && handlerCalls == old(handlerCalls)
    {
      ghost var p := Abs();
      ghost var r := SweepKeeps(p, selected, 0);
      count := 0;
      for i := 0 to blocks.Length
        invariant Sweep(Abs(), selected, i) == r
        invariant forall j :: i <= j < blocks.Length ==> blocks[j] == p.blocks[j]
        invariant freeCount == p.freeCount + count
        invariant pipeline == old(pipeline) && handlerCalls == old(handlerCalls)
      {
        ghost var q := Abs();
        assert Resting(p.blocks[i], p.tag);
        var st := blocks[i].state;
        if (st == Processing || st == Ready) && i in selected {
          var claimed := TryReclaim(i, Error);
          count := count + if claimed then 1 else 0;
        }
        SweepTurn(q, selected, i, Abs());
      }
    }
  }
}
