/** The flat-array behaviour tree: nodes refer to their children by index, composites loop over them and
    recurse through the context. Ticking it is the recursive reading of the tree it stands for. */
module BehaviorTree {
  import opened Bits
  import opened BtSemantics

  datatype Kind = KAction | KCondition | KSequence | KSelector | KParallel | KInverter | KRepeat

  datatype TickFn<!C> = NoFn | Fn(f: C -> Effect<C>)

  const MAX_CHILDREN: nat := 8

  datatype Node<!C> = Node(kind: Kind, name: nat, fn: TickFn<C>, parent: int, children: seq<nat>, threshold: nat,
                           count: nat)

  predicate IsLeaf(k: Kind) { k == KAction || k == KCondition }

  predicate IsDecorator(k: Kind) { k == KInverter || k == KRepeat }

  /** Children come after their parents. */
  predicate Ordered<C>(nodes: seq<Node<C>>) {
    forall i, k :: 0 <= i < |nodes| && 0 <= k < |nodes[i].children| ==> i < nodes[i].children[k] < |nodes|
  }

  /** The array with one more node, entered with its parent if it has one. The index the new node gets is taken for a
      parent too: then the node is its own child. */
  function WithNode<C>(nodes: seq<Node<C>>, node: Node<C>): (r: seq<Node<C>>)
    ensures |r| == |nodes| + 1
    ensures forall i :: 0 <= i < |nodes| ==>
              r[i] == if i == node.parent then nodes[i].(children := nodes[i].children + [|nodes|]) else nodes[i]
    ensures r[|nodes|] == if node.parent == |nodes| then node.(children := node.children + [|nodes|]) else node
  {
    var all := nodes + [node];
    if 0 <= node.parent <= |nodes| then
      all[node.parent := all[node.parent].(children := all[node.parent].children + [|nodes|])]
    else all
  }

  /** Children stay after their parents, whatever is added, exactly unless the node is made its own child. */
  lemma WithNodeOrderedIff<C>(nodes: seq<Node<C>>, node: Node<C>)
    requires node.children == []
    ensures Ordered(nodes) ==> (Ordered(WithNode(nodes, node)) <==> node.parent != |nodes|)
  {
    var r, n := WithNode(nodes, node), |nodes|;
    if node.parent == n {
      assert r[n].children[0] == n;
    }
  }

  function LeafOf<C>(node: Node<C>): Tree<C> { if node.fn.NoFn? then Faulty else Leaf(node.name, node.fn.f) }

  /** The tree a node stands for. A leaf without a function and a decorator without its one child may not be ticked. */
  function TreeOf<C>(nodes: seq<Node<C>>, i: nat): Tree<C>
    requires Ordered(nodes) && i < |nodes|
    decreases |nodes| - i, 1, 0
  {
    var node := nodes[i];
    match node.kind
    case KAction => LeafOf(node)
    case KCondition => LeafOf(node)
    case KSequence => Sequence(ForestOf(nodes, i, 0))
    case KSelector => Selector(ForestOf(nodes, i, 0))
    case KParallel => Parallel(node.threshold, ForestOf(nodes, i, 0))
    case KInverter => if |node.children| != 1 then Faulty else Inverter(TreeOf(nodes, node.children[0]))
    case KRepeat => if |node.children| != 1 then Faulty else Repeat(i, node.count, TreeOf(nodes, node.children[0]))
  }

  /** The trees of a node's children from the `k`th on. */
  function ForestOf<C>(nodes: seq<Node<C>>, i: nat, k: nat): Forest<C>
    requires Ordered(nodes) && i < |nodes| && k <= |nodes[i].children|
    decreases |nodes| - i, 0, |nodes[i].children| - k
  {
    if k == |nodes[i].children| then Nil
    else Cons(TreeOf(nodes, nodes[i].children[k]), ForestOf(nodes, i, k + 1))
  }

  lemma {:induction false} ForestLength<C>(nodes: seq<Node<C>>, i: nat, k: nat)
    requires Ordered(nodes) && i < |nodes| && k <= |nodes[i].children|
    ensures Length(ForestOf(nodes, i, k)) == |nodes[i].children| - k
    decreases |nodes[i].children| - k
  {
    if k < |nodes[i].children| {
      ForestLength(nodes, i, k + 1);
    }
  }

  // ---------------------------------------------------------------- one turn of the loops over the children

  lemma SequenceRuns<C>(nodes: seq<Node<C>>, i: nat, k: nat, w: World<C>)
    requires Ordered(nodes) && i < |nodes| && k < |nodes[i].children| && RunsSequence(ForestOf(nodes, i, k), w)
    ensures Runs(TreeOf(nodes, nodes[i].children[k]), w)
  {
  }

  /** The `k`th child has answered `r`: it decides, or the others do. */
  lemma SequenceTurn<C>(nodes: seq<Node<C>>, i: nat, k: nat, w: World<C>, r: Ticked<C>)
    requires Ordered(nodes) && i < |nodes| && k < |nodes[i].children| && RunsSequence(ForestOf(nodes, i, k), w)
    requires r == Eval(TreeOf(nodes, nodes[i].children[k]), w)
    ensures EvalSequence(ForestOf(nodes, i, k), w) ==
            if r.status == Failure || r.status == Running then r
            else EvalSequence(ForestOf(nodes, i, k + 1), r.world)
    ensures r.status == Failure || r.status == Running || RunsSequence(ForestOf(nodes, i, k + 1), r.world)
  {
  }

  lemma SelectorRuns<C>(nodes: seq<Node<C>>, i: nat, k: nat, w: World<C>)
    requires Ordered(nodes) && i < |nodes| && k < |nodes[i].children| && RunsSelector(ForestOf(nodes, i, k), w)
    ensures Runs(TreeOf(nodes, nodes[i].children[k]), w)
  {
  }

  lemma SelectorTurn<C>(nodes: seq<Node<C>>, i: nat, k: nat, w: World<C>, r: Ticked<C>)
    requires Ordered(nodes) && i < |nodes| && k < |nodes[i].children| && RunsSelector(ForestOf(nodes, i, k), w)
    requires r == Eval(TreeOf(nodes, nodes[i].children[k]), w)
    ensures EvalSelector(ForestOf(nodes, i, k), w) ==
            if r.status == Success || r.status == Running then r
            else EvalSelector(ForestOf(nodes, i, k + 1), r.world)
    ensures r.status == Success || r.status == Running || RunsSelector(ForestOf(nodes, i, k + 1), r.world)
  {
  }

  lemma AllRun<C>(nodes: seq<Node<C>>, i: nat, k: nat, w: World<C>)
    requires Ordered(nodes) && i < |nodes| && k < |nodes[i].children| && RunsAll(ForestOf(nodes, i, k), w)
    ensures Runs(TreeOf(nodes, nodes[i].children[k]), w)
  {
  }

  lemma ParallelTurn<C>(nodes: seq<Node<C>>, i: nat, k: nat, w: World<C>, r: Ticked<C>, n: nat, threshold: nat, s: nat,
                        f: nat)
    requires Ordered(nodes) && i < |nodes| && k < |nodes[i].children| && RunsAll(ForestOf(nodes, i, k), w)
    requires r == Eval(TreeOf(nodes, nodes[i].children[k]), w)
    ensures EvalParallel(ForestOf(nodes, i, k), w, n, threshold, s, f) ==
            EvalParallel(ForestOf(nodes, i, k + 1), r.world, n, threshold,
                         s + (if r.status == Success then 1 else 0), f + if r.status == Failure then 1 else 0)
    ensures RunsAll(ForestOf(nodes, i, k + 1), r.world)
  {
  }

  // ---------------------------------------------------------------- finished trees

  /** What ticking asserts: leaves have a function and decorators one child. */
  predicate Complete<C>(nodes: seq<Node<C>>) {
    forall i :: 0 <= i < |nodes| ==>
      && (IsLeaf(nodes[i].kind) ==> nodes[i].fn.Fn?)
      && (IsDecorator(nodes[i].kind) ==> |nodes[i].children| == 1)
  }

  /** A finished array can be ticked from any node, in any world. */
  lemma {:induction false} CompleteRuns<C>(nodes: seq<Node<C>>, i: nat, w: World<C>)
    requires Ordered(nodes) && Complete(nodes) && i < |nodes|
    ensures Runs(TreeOf(nodes, i), w)
    decreases |nodes| - i, 1, 0
  {
    match nodes[i].kind
    case KSequence => CompleteSequenceRuns(nodes, i, 0, w);
    case KSelector => CompleteSelectorRuns(nodes, i, 0, w);
    case KParallel => CompleteAllRun(nodes, i, 0, w);
    case KInverter => CompleteRuns(nodes, nodes[i].children[0], w);
    case KRepeat => CompleteRuns(nodes, nodes[i].children[0], w);
    case _ =>
  }

  lemma {:induction false} CompleteSequenceRuns<C>(nodes: seq<Node<C>>, i: nat, k: nat, w: World<C>)
    requires Ordered(nodes) && Complete(nodes) && i < |nodes| && k <= |nodes[i].children|
    ensures RunsSequence(ForestOf(nodes, i, k), w)
    decreases |nodes| - i, 0, |nodes[i].children| - k
  {
    if k < |nodes[i].children| {
      CompleteRuns(nodes, nodes[i].children[k], w);
      CompleteSequenceRuns(nodes, i, k + 1, Eval(TreeOf(nodes, nodes[i].children[k]), w).world);
    }
  }

  lemma {:induction false} CompleteSelectorRuns<C>(nodes: seq<Node<C>>, i: nat, k: nat, w: World<C>)
    requires Ordered(nodes) && Complete(nodes) && i < |nodes| && k <= |nodes[i].children|
    ensures RunsSelector(ForestOf(nodes, i, k), w)
    decreases |nodes| - i, 0, |nodes[i].children| - k
  {
    if k < |nodes[i].children| {
      CompleteRuns(nodes, nodes[i].children[k], w);
      CompleteSelectorRuns(nodes, i, k + 1, Eval(TreeOf(nodes, nodes[i].children[k]), w).world);
    }
  }

  lemma {:induction false} CompleteAllRun<C>(nodes: seq<Node<C>>, i: nat, k: nat, w: World<C>)
    requires Ordered(nodes) && Complete(nodes) && i < |nodes| && k <= |nodes[i].children|
    ensures RunsAll(ForestOf(nodes, i, k), w)
    decreases |nodes| - i, 0, |nodes[i].children| - k
  {
    if k < |nodes[i].children| {
      CompleteRuns(nodes, nodes[i].children[k], w);
      CompleteAllRun(nodes, i, k + 1, Eval(TreeOf(nodes, nodes[i].children[k]), w).world);
    }
  }

  /** The repeat nodes below a node have higher numbers, so that no node's child touches the node's own counter. */
  lemma {:induction false} LaterNumbers<C>(nodes: seq<Node<C>>, i: nat, id: nat)
    requires Ordered(nodes) && id < i < |nodes|
    ensures !Mentions(TreeOf(nodes, i), id)
    decreases |nodes| - i, 1, 0
  {
    match nodes[i].kind
    case KSequence => LaterChildren(nodes, i, 0, id);
    case KSelector => LaterChildren(nodes, i, 0, id);
    case KParallel => LaterChildren(nodes, i, 0, id);
    case KInverter => if |nodes[i].children| == 1 { LaterNumbers(nodes, nodes[i].children[0], id); }
    case KRepeat => if |nodes[i].children| == 1 { LaterNumbers(nodes, nodes[i].children[0], id); }
    case _ =>
  }

  lemma {:induction false} LaterChildren<C>(nodes: seq<Node<C>>, i: nat, k: nat, id: nat)
    requires Ordered(nodes) && id <= i < |nodes| && k <= |nodes[i].children|
    ensures !SomeMentions(ForestOf(nodes, i, k), id)
    decreases |nodes| - i, 0, |nodes[i].children| - k
  {
    if k < |nodes[i].children| {
      LaterNumbers(nodes, nodes[i].children[k], id);
      LaterChildren(nodes, i, k + 1, id);
    }
  }

  class BehaviorTree<C> {
    const maxNodes: nat
    const counters: array<nat>
    var nodes: seq<Node<C>>
    var root: int
    var last: Status
    var ctx: C
    ghost var ticked: seq<nat>

    ghost predicate Valid()
      reads this
    {
      counters.Length == maxNodes && |nodes| <= maxNodes && -1 <= root < |nodes|
    }

    ghost function View(): World<C>
      reads this, counters
    {
      World(ctx, counters[..], ticked)
    }

    constructor (max: nat, c: C)
      ensures Valid() && fresh(counters) && nodes == [] && root == -1 && last == Idle
      ensures maxNodes == max && View().ctx == c && forall i :: 0 <= i < max ==> counters[i] == 0
    {
      maxNodes := max;
      counters := new nat[max](_ => 0);
      nodes := [];
      root := -1;
      last := Idle;
      ctx := c;
      ticked := [];
    }

    /** The parent has room for another child. */
    predicate CanTake(parent: int)
      reads this
    {
      0 <= parent < |nodes| ==> |nodes[parent].children| < MAX_CHILDREN
    }

    /** A new node at the end of the array, entered with its parent. A full tree takes none. */
    method AddNode(kind: Kind, name: nat, fn: TickFn<C>, parent: int) returns (idx: int)
      requires Valid() && (|nodes| < maxNodes ==> CanTake(parent))
      modifies this`nodes
      ensures Valid()
      ensures idx == if old(|nodes|) >= maxNodes then -1 else old(|nodes|)
      ensures nodes == if idx < 0 then old(nodes) else WithNode(old(nodes), Node(kind, name, fn, parent, [], 0, 0))
      ensures old(Ordered(nodes)) ==> (Ordered(nodes) <==> idx < 0 || parent != idx)
    {
      if |nodes| >= maxNodes {
        return -1;
      }
      WithNodeOrderedIff(nodes, Node(kind, name, fn, parent, [], 0, 0));
      idx := |nodes|;
      nodes := nodes + [Node(kind, name, fn, parent, [], 0, 0)];
      if 0 <= parent < |nodes| {
        nodes := nodes[parent := nodes[parent].(children := nodes[parent].children + [idx])];
      }
    }

    /** A parallel node with its threshold. */
    method AddParallel(name: nat, threshold: nat, parent: int) returns (idx: int)
      requires Valid() && threshold < WORD && (|nodes| < maxNodes ==> CanTake(parent))
      modifies this`nodes
      ensures Valid() && idx == if old(|nodes|) >= maxNodes then -1 else old(|nodes|)
      ensures nodes == if idx < 0 then old(nodes)
                       else WithNode(old(nodes), Node(KParallel, name, NoFn, parent, [], threshold, 0))
      ensures old(Ordered(nodes)) ==> (Ordered(nodes) <==> idx < 0 || parent != idx)
    {
      idx := AddNode(KParallel, name, NoFn, parent);
      if idx >= 0 {
        nodes := nodes[idx := nodes[idx].(threshold := threshold)];
      }
    }

    /** A repeat node with its count. */
    method AddRepeat(name: nat, count: nat, parent: int) returns (idx: int)
      requires Valid() && (|nodes| < maxNodes ==> CanTake(parent))
      modifies this`nodes
      ensures Valid() && idx == if old(|nodes|) >= maxNodes then -1 else old(|nodes|)
      ensures nodes == if idx < 0 then old(nodes)
                       else WithNode(old(nodes), Node(KRepeat, name, NoFn, parent, [], 0, count))
      ensures old(Ordered(nodes)) ==> (Ordered(nodes) <==> idx < 0 || parent != idx)
    {
      idx := AddNode(KRepeat, name, NoFn, parent);
      if idx >= 0 {
        nodes := nodes[idx := nodes[idx].(count := count)];
      }
    }

    method SetRoot(i: int)
      requires Valid() && 0 <= i < |nodes|
      modifies this`root
      ensures Valid() && root == i
    {
      root := i;
    }

    /** Ticking a node is evaluating the tree it stands for. */
    method TickNode(i: nat) returns (status: Status)
      requires Valid() && Ordered(nodes) && i < |nodes| && Runs(TreeOf(nodes, i), View())
      modifies this`ctx, this`ticked, counters
      ensures Ticked(status, View()) == Eval(TreeOf(nodes, i), old(View()))
      decreases |nodes| - i, 1
    {
      var node := nodes[i];
      match node.kind {
        case KAction => status := TickLeaf(i);
        case KCondition => status := TickLeaf(i);
        case KSequence => status := TickSequence(i);
        case KSelector => status := TickSelector(i);
        case KParallel => status := TickParallel(i);
        case KInverter => status := TickInverter(i);
        case KRepeat => status := TickRepeat(i);
      }
    }

    method TickLeaf(i: nat) returns (status: Status)
      requires Valid() && Ordered(nodes) && i < |nodes| && Runs(TreeOf(nodes, i), View()) && IsLeaf(nodes[i].kind)
      modifies this`ctx, this`ticked
      ensures Ticked(status, View()) == Eval(TreeOf(nodes, i), old(View()))
      ensures var e := nodes[i].fn.f(old(ctx));
              status == e.status && ctx == e.ctx && ticked == old(ticked) + [nodes[i].name]
    {
      var e := nodes[i].fn.f(ctx);
      ctx := e.ctx;
      ticked := ticked + [nodes[i].name];
      status := e.status;
    }

    method TickSequence(i: nat) returns (status: Status)
      requires Valid() && Ordered(nodes) && i < |nodes| && Runs(TreeOf(nodes, i), View()) && nodes[i].kind == KSequence
      modifies this`ctx, this`ticked, counters
      ensures Ticked(status, View()) == Eval(TreeOf(nodes, i), old(View()))
      decreases |nodes| - i, 0
    {
      ghost var goal := EvalSequence(ForestOf(nodes, i, 0), View());
      for k := 0 to |nodes[i].children|
        invariant EvalSequence(ForestOf(nodes, i, k), View()) == goal && RunsSequence(ForestOf(nodes, i, k), View())
      {
        ghost var w := View();
        SequenceRuns(nodes, i, k, w);
        var child := TickNode(nodes[i].children[k]);
        SequenceTurn(nodes, i, k, w, Ticked(child, View()));
        if child == Failure {
          return Failure;
        }
        if child == Running {
          return Running;
        }
      }
      return Success;
    }

    method TickSelector(i: nat) returns (status: Status)
      requires Valid() && Ordered(nodes) && i < |nodes| && Runs(TreeOf(nodes, i), View()) && nodes[i].kind == KSelector
      modifies this`ctx, this`ticked, counters
      ensures Ticked(status, View()) == Eval(TreeOf(nodes, i), old(View()))
      decreases |nodes| - i, 0
    {
      ghost var goal := EvalSelector(ForestOf(nodes, i, 0), View());
      for k := 0 to |nodes[i].children|
        invariant EvalSelector(ForestOf(nodes, i, k), View()) == goal && RunsSelector(ForestOf(nodes, i, k), View())
      {
        ghost var w := View();
        SelectorRuns(nodes, i, k, w);
        var child := TickNode(nodes[i].children[k]);
        SelectorTurn(nodes, i, k, w, Ticked(child, View()));
        if child == Success {
          return Success;
        }
        if child == Running {
          return Running;
        }
      }
      return Failure;
    }

    /** Every child of a parallel node is ticked, whatever the others answer. */
    method TickAll(i: nat) returns (successes: nat, failures: nat)
      requires Valid() && Ordered(nodes) && i < |nodes| && RunsAll(ForestOf(nodes, i, 0), View())
      modifies this`ctx, this`ticked, counters
      ensures var n, threshold := |nodes[i].children|, nodes[i].threshold;
              Ticked(Joined(n, threshold, successes, failures), View())
              == EvalParallel(ForestOf(nodes, i, 0), old(View()), n, threshold, 0, 0)
      decreases |nodes| - i, 0, 0
    {
      ghost var n, threshold := |nodes[i].children|, nodes[i].threshold;
      ghost var goal := EvalParallel(ForestOf(nodes, i, 0), View(), n, threshold, 0, 0);
      successes, failures := 0, 0;
      for k := 0 to |nodes[i].children|
        invariant EvalParallel(ForestOf(nodes, i, k), View(), n, threshold, successes, failures) == goal
        invariant RunsAll(ForestOf(nodes, i, k), View())
      {
        ghost var w := View();
        AllRun(nodes, i, k, w);
        var child := TickNode(nodes[i].children[k]);
        ParallelTurn(nodes, i, k, w, Ticked(child, View()), n, threshold, successes, failures);
        if child == Success {
          successes := successes + 1;
        } else if child == Failure {
          failures := failures + 1;
        }
      }
    }

    method TickParallel(i: nat) returns (status: Status)
      requires Valid() && Ordered(nodes) && i < |nodes| && Runs(TreeOf(nodes, i), View()) && nodes[i].kind == KParallel
      modifies this`ctx, this`ticked, counters
      ensures Ticked(status, View()) == Eval(TreeOf(nodes, i), old(View()))
      decreases |nodes| - i, 0, 1
    {
      ForestLength(nodes, i, 0);
      var successes, failures := TickAll(i);
      if successes >= nodes[i].threshold {
        return Success;
      }
      if failures > AllowedFailures(|nodes[i].children|, nodes[i].threshold) {
        return Failure;
      }
      return Running;
    }

    method TickInverter(i: nat) returns (status: Status)
      requires Valid() && Ordered(nodes) && i < |nodes| && Runs(TreeOf(nodes, i), View()) && nodes[i].kind == KInverter
      modifies this`ctx, this`ticked, counters
      ensures Ticked(status, View()) == Eval(TreeOf(nodes, i), old(View()))
      decreases |nodes| - i, 0
    {
      var child := TickNode(nodes[i].children[0]);
      if child == Success {
        return Failure;
      }
      if child == Failure {
        return Success;
      }
      return child;
    }

    method TickRepeat(i: nat) returns (status: Status)
      requires Valid() && Ordered(nodes) && i < |nodes| && Runs(TreeOf(nodes, i), View()) && nodes[i].kind == KRepeat
      modifies this`ctx, this`ticked, counters
      ensures Ticked(status, View()) == Eval(TreeOf(nodes, i), old(View()))
      decreases |nodes| - i, 0
    {
      var child := TickNode(nodes[i].children[0]);
      if child == Failure {
        counters[i] := 0;
        return Failure;
      }
      if child == Running {
        return Running;
      }
      if nodes[i].count == 0 {
        return Running;
      }
      counters[i] := counters[i] + 1;
      if counters[i] >= nodes[i].count {
        counters[i] := 0;
        return Success;
      }
      return Running;
    }

    /** One tick from the root; without a root it fails. */
    method Tick() returns (status: Status)
      requires Valid() && (root >= 0 ==> Ordered(nodes) && Runs(TreeOf(nodes, root), View()))
      modifies this`ctx, this`ticked, this`last, counters
      ensures Valid() && last == status
      ensures root < 0 ==> status == Failure && View() == old(View())
      ensures root >= 0 ==> Ticked(status, View()) == Eval(TreeOf(nodes, root), old(View()))
    {
      if root < 0 {
        last := Failure;
        return Failure;
      }
      last := TickNode(root);
      return last;
    }
  }
}
