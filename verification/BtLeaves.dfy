/** What ticking does in terms of the leaf functions alone: every tick is a chain of leaf calls, each on the context the
    one before it left, and composites of leaves are described by the answers along that chain. */
module BtLeaves {
  import opened Bits
  import opened BtSemantics
  import opened BehaviorTree

  /** A leaf: its name and its function. */
  datatype Act<!C> = Act(name: nat, fn: C -> Effect<C>)

  // ---------------------------------------------------------------- chains of calls

  /** The context after the first `i` functions. */
  function CtxAt<C>(acts: seq<Act<C>>, c: C, i: nat): C
    requires i <= |acts|
  {
    if i == 0 then c else acts[i - 1].fn(CtxAt(acts, c, i - 1)).ctx
  }

  /** What the `i`th function answers in the context the others left. */
  function AnswerAt<C>(acts: seq<Act<C>>, c: C, i: nat): Status
    requires i < |acts|
  {
    acts[i].fn(CtxAt(acts, c, i)).status
  }

  function Names<C>(acts: seq<Act<C>>): seq<nat> {
    seq(|acts|, i requires 0 <= i < |acts| => acts[i].name)
  }

  /** The world after the first `n` functions. */
  function AfterActs<C>(acts: seq<Act<C>>, w: World<C>, n: nat): World<C>
    requires n <= |acts|
  {
    w.(ctx := CtxAt(acts, w.ctx, n), ticked := w.ticked + Names(acts[..n]))
  }

  lemma {:induction false} CtxShift<C>(acts: seq<Act<C>>, c: C, i: nat)
    requires i < |acts|
    ensures CtxAt(acts, c, i + 1) == CtxAt(acts[1..], acts[0].fn(c).ctx, i)
  {
    if i > 0 {
      CtxShift(acts, c, i - 1);
    } else {
      assert CtxAt(acts, c, 0) == c;
    }
  }

  lemma AnswerShift<C>(acts: seq<Act<C>>, c: C, i: nat)
    requires i + 1 < |acts|
    ensures AnswerAt(acts, c, i + 1) == AnswerAt(acts[1..], acts[0].fn(c).ctx, i)
  {
    CtxShift(acts, c, i);
  }

  lemma AfterShift<C>(acts: seq<Act<C>>, w: World<C>, n: nat)
    requires n < |acts|
    ensures AfterActs(acts, w, n + 1) == AfterActs(acts[1..], AfterActs(acts, w, 1), n)
  {
    CtxShift(acts, w.ctx, n);
    CtxShift(acts, w.ctx, 0);
    assert Names(acts[..n + 1]) == Names(acts[..1]) + Names(acts[1..][..n]);
  }

  // ---------------------------------------------------------------- composites of leaves

  function LeavesOf<C>(acts: seq<Act<C>>): Forest<C> {
    if acts == [] then Nil else Cons(Leaf(acts[0].name, acts[0].fn), LeavesOf(acts[1..]))
  }

  lemma LeafTick<C>(acts: seq<Act<C>>, w: World<C>)
    requires acts != []
    ensures Eval(Leaf(acts[0].name, acts[0].fn), w) == Ticked(AnswerAt(acts, w.ctx, 0), AfterActs(acts, w, 1))
  {
    assert CtxAt(acts, w.ctx, 0) == w.ctx && CtxAt(acts, w.ctx, 1) == acts[0].fn(w.ctx).ctx;
    assert Names(acts[..1]) == [acts[0].name];
  }

  /** `k` is the first that answers with one of the two stopping answers; all of them may go by. */
  ghost predicate StopsAt<C>(acts: seq<Act<C>>, c: C, k: nat, stop: Status) {
    && k <= |acts|
    && (forall i :: 0 <= i < k ==> AnswerAt(acts, c, i) != stop && AnswerAt(acts, c, i) != Running)
    && (k < |acts| ==> AnswerAt(acts, c, k) == stop || AnswerAt(acts, c, k) == Running)
  }

  /** Ticked up to the one that stops, whose answer is the answer; otherwise all are ticked. */
  function Stopped<C>(acts: seq<Act<C>>, w: World<C>, k: nat, otherwise: Status): Ticked<C>
    requires k <= |acts|
  {
    if k < |acts| then Ticked(AnswerAt(acts, w.ctx, k), AfterActs(acts, w, k + 1))
    else Ticked(otherwise, AfterActs(acts, w, |acts|))
  }

  lemma StopsLater<C>(acts: seq<Act<C>>, w: World<C>, k: nat, stop: Status, otherwise: Status)
    requires acts != [] && AnswerAt(acts, w.ctx, 0) != stop && AnswerAt(acts, w.ctx, 0) != Running
    requires StopsAt(acts[1..], AfterActs(acts, w, 1).ctx, k, stop)
    ensures StopsAt(acts, w.ctx, k + 1, stop)
    ensures Stopped(acts, w, k + 1, otherwise) == Stopped(acts[1..], AfterActs(acts, w, 1), k, otherwise)
  {
    CtxShift(acts, w.ctx, 0);
    forall i | 0 <= i < |acts| - 1
      ensures AnswerAt(acts, w.ctx, i + 1) == AnswerAt(acts[1..], acts[0].fn(w.ctx).ctx, i)
    {
      AnswerShift(acts, w.ctx, i);
    }
    forall i | 0 <= i < k + 1 ensures AnswerAt(acts, w.ctx, i) != stop && AnswerAt(acts, w.ctx, i) != Running {
      if i > 0 {
        assert AnswerAt(acts, w.ctx, (i - 1) + 1) == AnswerAt(acts[1..], acts[0].fn(w.ctx).ctx, i - 1);
      }
    }
    AfterShift(acts, w, if k < |acts| - 1 then k + 1 else k);
  }

  lemma NothingTicked<C>(w: World<C>)
    ensures AfterActs([], w, 0) == w
  {
    assert w.ticked + [] == w.ticked;
  }

  /** A sequence of leaves calls the functions in order up to the first that fails or is running and gives its answer,
      or calls all of them and succeeds. */
  lemma {:induction false} SequenceOfLeaves<C>(acts: seq<Act<C>>, w: World<C>) returns (k: nat)
    ensures StopsAt(acts, w.ctx, k, Failure) && Eval(Sequence(LeavesOf(acts)), w) == Stopped(acts, w, k, Success)
  {
    k := 0;
    if acts == [] {
      NothingTicked(w);
    } else {
      LeafTick(acts, w);
      if AnswerAt(acts, w.ctx, 0) != Failure && AnswerAt(acts, w.ctx, 0) != Running {
        var j := SequenceOfLeaves(acts[1..], AfterActs(acts, w, 1));
        StopsLater(acts, w, j, Failure, Success);
        k := j + 1;
      }
    }
  }

  /** A selector of leaves calls them up to the first that succeeds or is running, or calls all and fails. */
  lemma {:induction false} SelectorOfLeaves<C>(acts: seq<Act<C>>, w: World<C>) returns (k: nat)
    ensures StopsAt(acts, w.ctx, k, Success) && Eval(Selector(LeavesOf(acts)), w) == Stopped(acts, w, k, Failure)
  {
    k := 0;
    if acts == [] {
      NothingTicked(w);
    } else {
      LeafTick(acts, w);
      if AnswerAt(acts, w.ctx, 0) != Success && AnswerAt(acts, w.ctx, 0) != Running {
        var j := SelectorOfLeaves(acts[1..], AfterActs(acts, w, 1));
        StopsLater(acts, w, j, Success, Failure);
        k := j + 1;
      }
    }
  }

  function AllAnswers<C>(acts: seq<Act<C>>, c: C): seq<Status> {
    seq(|acts|, i requires 0 <= i < |acts| => AnswerAt(acts, c, i))
  }

  lemma {:induction false} AllLeavesTicked<C>(acts: seq<Act<C>>, w: World<C>)
    ensures Length(LeavesOf(acts)) == |acts| && Answers(LeavesOf(acts), w) == AllAnswers(acts, w.ctx)
    ensures AfterAll(LeavesOf(acts), w) == AfterActs(acts, w, |acts|)
  {
    if acts == [] {
      NothingTicked(w);
    } else {
      LeafTick(acts, w);
      CtxShift(acts, w.ctx, 0);
      AllLeavesTicked(acts[1..], AfterActs(acts, w, 1));
      AfterShift(acts, w, |acts| - 1);
      forall i | 0 <= i < |acts| - 1
        ensures AllAnswers(acts, w.ctx)[i + 1] == AllAnswers(acts[1..], acts[0].fn(w.ctx).ctx)[i]
      {
        AnswerShift(acts, w.ctx, i);
      }
      assert AllAnswers(acts, w.ctx) == [AnswerAt(acts, w.ctx, 0)] + AllAnswers(acts[1..], acts[0].fn(w.ctx).ctx);
    }
  }

  /** A parallel node over leaves calls all of them and counts their answers. */
  lemma ParallelOfLeaves<C>(threshold: nat, acts: seq<Act<C>>, w: World<C>)
    requires threshold < WORD
    ensures var r, answers := Eval(Parallel(threshold, LeavesOf(acts)), w), AllAnswers(acts, w.ctx);
            && r.world == AfterActs(acts, w, |acts|)
            && (r.status == Success <==> CountOf(answers, Success) >= threshold)
            && (r.status == Failure <==> |acts| - CountOf(answers, Failure) < threshold <= |acts|)
  {
    AllLeavesTicked(acts, w);
    ParallelAnswers(threshold, LeavesOf(acts), w);
  }

  // ---------------------------------------------------------------- a composite in the array

  /** All the children of a node are leaves with a function. */
  predicate OverLeaves<C>(nodes: seq<Node<C>>, i: nat)
    requires Ordered(nodes) && i < |nodes|
  {
    forall k :: 0 <= k < |nodes[i].children| ==>
      IsLeaf(nodes[nodes[i].children[k]].kind) && nodes[nodes[i].children[k]].fn.Fn?
  }

  /** Those leaves, from the `k`th on. */
  function ActsOf<C>(nodes: seq<Node<C>>, i: nat, k: nat): (acts: seq<Act<C>>)
    requires Ordered(nodes) && i < |nodes| && OverLeaves(nodes, i) && k <= |nodes[i].children|
    ensures |acts| == |nodes[i].children| - k
    decreases |nodes[i].children| - k
  {
    if k == |nodes[i].children| then []
    else [Act(nodes[nodes[i].children[k]].name, nodes[nodes[i].children[k]].fn.f)] + ActsOf(nodes, i, k + 1)
  }

  lemma {:induction false} ForestIsLeaves<C>(nodes: seq<Node<C>>, i: nat, k: nat)
    requires Ordered(nodes) && i < |nodes| && OverLeaves(nodes, i) && k <= |nodes[i].children|
    ensures ForestOf(nodes, i, k) == LeavesOf(ActsOf(nodes, i, k))
    decreases |nodes[i].children| - k
  {
    if k < |nodes[i].children| {
      ForestIsLeaves(nodes, i, k + 1);
      assert ActsOf(nodes, i, k)[1..] == ActsOf(nodes, i, k + 1);
    }
  }

  /** A leaf answers what its function answers and leaves the context the function leaves. */
  lemma LeafNode<C>(nodes: seq<Node<C>>, i: nat, w: World<C>)
    requires Ordered(nodes) && i < |nodes| && IsLeaf(nodes[i].kind) && nodes[i].fn.Fn?
    ensures var r, e := Eval(TreeOf(nodes, i), w), nodes[i].fn.f(w.ctx);
            r.status == e.status && r.world == World(e.ctx, w.counters, w.ticked + [nodes[i].name])
  {
  }

  /** A sequence node over leaves, */
  lemma SequenceNode<C>(nodes: seq<Node<C>>, i: nat, w: World<C>) returns (k: nat)
    requires Ordered(nodes) && i < |nodes| && nodes[i].kind == KSequence && OverLeaves(nodes, i)
    ensures var acts := ActsOf(nodes, i, 0);
            StopsAt(acts, w.ctx, k, Failure) && Eval(TreeOf(nodes, i), w) == Stopped(acts, w, k, Success)
  {
    ForestIsLeaves(nodes, i, 0);
    k := SequenceOfLeaves(ActsOf(nodes, i, 0), w);
  }

  /** a selector node, */
  lemma SelectorNode<C>(nodes: seq<Node<C>>, i: nat, w: World<C>) returns (k: nat)
    requires Ordered(nodes) && i < |nodes| && nodes[i].kind == KSelector && OverLeaves(nodes, i)
    ensures var acts := ActsOf(nodes, i, 0);
            StopsAt(acts, w.ctx, k, Success) && Eval(TreeOf(nodes, i), w) == Stopped(acts, w, k, Failure)
  {
    ForestIsLeaves(nodes, i, 0);
    k := SelectorOfLeaves(ActsOf(nodes, i, 0), w);
  }

  /** and a parallel node. */
  lemma ParallelNode<C>(nodes: seq<Node<C>>, i: nat, w: World<C>)
    requires Ordered(nodes) && i < |nodes| && nodes[i].kind == KParallel && OverLeaves(nodes, i)
    requires nodes[i].threshold < WORD
    ensures var r, acts, n := Eval(TreeOf(nodes, i), w), ActsOf(nodes, i, 0), |nodes[i].children|;
            var answers := AllAnswers(acts, w.ctx);
            && r.world == AfterActs(acts, w, n)
            && (r.status == Success <==> CountOf(answers, Success) >= nodes[i].threshold)
            && (r.status == Failure <==> n - CountOf(answers, Failure) < nodes[i].threshold <= n)
  {
    ForestIsLeaves(nodes, i, 0);
    ParallelOfLeaves(nodes[i].threshold, ActsOf(nodes, i, 0), w);
  }

  // ---------------------------------------------------------------- any tree

  /** The leaves of a tree from left to right. */
  function Leaves<C>(t: Tree<C>): seq<Act<C>> {
    match t
    case Faulty => []
    case Leaf(name, fn) => [Act(name, fn)]
    case Sequence(children) => ForestLeaves(children)
    case Selector(children) => ForestLeaves(children)
    case Parallel(_, children) => ForestLeaves(children)
    case Inverter(child) => Leaves(child)
    case Repeat(_, _, child) => Leaves(child)
  }

  function ForestLeaves<C>(ts: Forest<C>): seq<Act<C>> {
    match ts
    case Nil => []
    case Cons(t, rest) => Leaves(t) + ForestLeaves(rest)
  }

  /** `a` is what is left of `b` when some are left out. */
  ghost predicate Among<C>(a: seq<Act<C>>, b: seq<Act<C>>)
    decreases |b|
  {
    a == [] || (b != [] && ((a[0] == b[0] && Among(a[1..], b[1..])) || Among(a, b[1..])))
  }

  lemma {:induction false} AmongJoin<C>(a: seq<Act<C>>, b: seq<Act<C>>, c: seq<Act<C>>, d: seq<Act<C>>)
    requires Among(a, b) && Among(c, d)
    ensures Among(a + c, b + d)
    decreases |b|
  {
    if b == [] {
      assert a + c == c && b + d == d;
    } else {
      assert (b + d)[1..] == b[1..] + d;
      if a != [] && a[0] == b[0] && Among(a[1..], b[1..]) {
        AmongJoin(a[1..], b[1..], c, d);
        assert (a + c)[1..] == a[1..] + c;
      } else {
        AmongJoin(a, b[1..], c, d);
      }
    }
  }

  /** The world `v` is what the calls make of `w`. */
  ghost predicate CallsLead<C>(acts: seq<Act<C>>, w: World<C>, v: World<C>) {
    v.ctx == CtxAt(acts, w.ctx, |acts|) && v.ticked == w.ticked + Names(acts)
  }

  lemma {:induction false} CtxJoin<C>(a: seq<Act<C>>, b: seq<Act<C>>, c: C, i: nat)
    requires i <= |b|
    ensures CtxAt(a + b, c, |a| + i) == CtxAt(b, CtxAt(a, c, |a|), i)
  {
    if i > 0 {
      CtxJoin(a, b, c, i - 1);
    } else {
      CtxPrefix(a, b, c, |a|);
    }
  }

  lemma {:induction false} CtxPrefix<C>(a: seq<Act<C>>, b: seq<Act<C>>, c: C, i: nat)
    requires i <= |a|
    ensures CtxAt(a + b, c, i) == CtxAt(a, c, i)
  {
    if i > 0 {
      CtxPrefix(a, b, c, i - 1);
    }
  }

  lemma CallsJoin<C>(a: seq<Act<C>>, b: seq<Act<C>>, w: World<C>, v: World<C>, u: World<C>)
    requires CallsLead(a, w, v) && CallsLead(b, v, u)
    ensures CallsLead(a + b, w, u)
  {
    CtxJoin(a, b, w.ctx, |b|);
    assert Names(a + b) == Names(a) + Names(b);
  }

  /** Whatever the tree, a tick is a chain of calls of some of its leaves, from left to right and none twice, each in
      the context the one before it left; nothing else touches the context. */
  lemma {:induction false} TickIsChain<C>(t: Tree<C>, w: World<C>) returns (acts: seq<Act<C>>)
    ensures CallsLead(acts, w, Eval(t, w).world) && Among(acts, Leaves(t))
  {
    match t
    case Faulty => acts := [];
    case Leaf(name, fn) =>
      acts := [Act(name, fn)];
      LeafTick(acts, w);
      assert acts[..1] == acts;
    case Sequence(children) => acts := SequenceIsChain(children, w);
    case Selector(children) => acts := SelectorIsChain(children, w);
    case Parallel(threshold, children) => acts := ParallelIsChain(children, w, Length(children), threshold, 0, 0);
    case Inverter(child) => acts := TickIsChain(child, w);
    case Repeat(_, _, child) => acts := TickIsChain(child, w);
  }

  lemma {:induction false} SequenceIsChain<C>(ts: Forest<C>, w: World<C>) returns (acts: seq<Act<C>>)
    ensures CallsLead(acts, w, EvalSequence(ts, w).world) && Among(acts, ForestLeaves(ts))
  {
    match ts
    case Nil => acts := [];
    case Cons(t, rest) =>
      var r := Eval(t, w);
      var first := TickIsChain(t, w);
      var others := [];
      if r.status != Failure && r.status != Running {
        others := SequenceIsChain(rest, r.world);
      }
      acts := ChainGoesOn(t, rest, first, others, w, r.world, EvalSequence(ts, w).world);
  }

  lemma {:induction false} SelectorIsChain<C>(ts: Forest<C>, w: World<C>) returns (acts: seq<Act<C>>)
    ensures CallsLead(acts, w, EvalSelector(ts, w).world) && Among(acts, ForestLeaves(ts))
  {
    match ts
    case Nil => acts := [];
    case Cons(t, rest) =>
      var r := Eval(t, w);
      var first := TickIsChain(t, w);
      var others := [];
      if r.status != Success && r.status != Running {
        others := SelectorIsChain(rest, r.world);
      }
      acts := ChainGoesOn(t, rest, first, others, w, r.world, EvalSelector(ts, w).world);
  }

  lemma {:induction false} ParallelIsChain<C>(ts: Forest<C>, w: World<C>, n: nat, threshold: nat, s: nat, f: nat)
    returns (acts: seq<Act<C>>)
    ensures CallsLead(acts, w, EvalParallel(ts, w, n, threshold, s, f).world) && Among(acts, ForestLeaves(ts))
  {
    match ts
    case Nil => acts := [];
    case Cons(t, rest) =>
      var r := Eval(t, w);
      var first := TickIsChain(t, w);
      var others := ParallelIsChain(rest, r.world, n, threshold, s + (if r.status == Success then 1 else 0),
                                    f + if r.status == Failure then 1 else 0);
      acts := ChainGoesOn(t, rest, first, others, w, r.world, EvalParallel(ts, w, n, threshold, s, f).world);
  }

  lemma ChainGoesOn<C>(t: Tree<C>, rest: Forest<C>, first: seq<Act<C>>, others: seq<Act<C>>,
                       w: World<C>, v: World<C>, u: World<C>) returns (acts: seq<Act<C>>)
    requires CallsLead(first, w, v) && Among(first, Leaves(t))
    requires CallsLead(others, v, u) && Among(others, ForestLeaves(rest))
    ensures CallsLead(acts, w, u) && Among(acts, ForestLeaves(Cons(t, rest)))
  {
    acts := first + others;
    CallsJoin(first, others, w, v, u);
    AmongJoin(first, Leaves(t), others, ForestLeaves(rest));
  }
}
