/** What a behaviour tree means: a recursive reading of an inductive tree, with the context, the repeat
    counters and the leaves ticked threaded through. */
module BtSemantics {
  import opened Bits

  datatype Status = Success | Failure | Running | Idle

  /** What ticking a leaf does. */
  datatype Effect<C> = Effect(status: Status, ctx: C)

  /** `Faulty` is a node that may not be ticked: a leaf without a function, or a decorator without its one child. */
  datatype Tree<!C> =
    | Faulty
    | Leaf(name: nat, fn: C -> Effect<C>)
    | Sequence(children: Forest<C>)
    | Selector(children: Forest<C>)
    | Parallel(threshold: nat, children: Forest<C>)
    | Inverter(child: Tree<C>)
    | Repeat(id: nat, count: nat, child: Tree<C>)

  datatype Forest<!C> = Nil | Cons(head: Tree<C>, tail: Forest<C>)

  /** The user's context, the repeat counter of each node, and the names of the leaves ticked so far. */
  datatype World<C> = World(ctx: C, counters: seq<nat>, ticked: seq<nat>)

  datatype Ticked<C> = Ticked(status: Status, world: World<C>)

  /** `n - threshold` in 32-bit arithmetic. */
  function AllowedFailures(n: nat, threshold: nat): int {
    if threshold <= n then n - threshold else n + WORD - threshold
  }

  function Joined(n: nat, threshold: nat, successes: nat, failures: nat): Status {
    if successes >= threshold then Success
    else if failures > AllowedFailures(n, threshold) then Failure
    else Running
  }

  function Inverted(s: Status): Status {
    match s
    case Success => Failure
    case Failure => Success
    case _ => s
  }

  /** What a repeat node answers and leaves in its counter, once its child answered. */
  function Repeated(count: nat, counter: nat, s: Status): (Status, nat) {
    if s == Failure then (Failure, 0)
    else if s == Running then (Running, counter)
    else if count == 0 then (Running, counter)
    else if counter + 1 >= count then (Success, 0)
    else (Running, counter + 1)
  }

  function Eval<C>(t: Tree<C>, w: World<C>): (r: Ticked<C>)
    ensures |r.world.counters| == |w.counters|
  {
    match t
    case Faulty => Ticked(Failure, w)
    case Leaf(name, fn) =>
      var e := fn(w.ctx);
      Ticked(e.status, w.(ctx := e.ctx, ticked := w.ticked + [name]))
    case Sequence(children) => EvalSequence(children, w)
    case Selector(children) => EvalSelector(children, w)
    case Parallel(threshold, children) => EvalParallel(children, w, Length(children), threshold, 0, 0)
    case Inverter(child) =>
      var r := Eval(child, w);
      r.(status := Inverted(r.status))
    case Repeat(id, count, child) =>
      var r := Eval(child, w);
      if id >= |w.counters| then r
      else
        var (status, counter) := Repeated(count, r.world.counters[id], r.status);
        Ticked(status, r.world.(counters := r.world.counters[id := counter]))
  }

  /** The children in order until one fails or is running. */
  function EvalSequence<C>(ts: Forest<C>, w: World<C>): (r: Ticked<C>)
    ensures |r.world.counters| == |w.counters|
  {
    match ts
    case Nil => Ticked(Success, w)
    case Cons(t, rest) =>
      var r := Eval(t, w);
      if r.status == Failure || r.status == Running then r else EvalSequence(rest, r.world)
  }

  /** The children in order until one succeeds or is running. */
  function EvalSelector<C>(ts: Forest<C>, w: World<C>): (r: Ticked<C>)
    ensures |r.world.counters| == |w.counters|
  {
    match ts
    case Nil => Ticked(Failure, w)
    case Cons(t, rest) =>
      var r := Eval(t, w);
      if r.status == Success || r.status == Running then r else EvalSelector(rest, r.world)
  }

  /** All the children, counting successes and failures. */
  function EvalParallel<C>(ts: Forest<C>, w: World<C>, n: nat, threshold: nat, successes: nat, failures: nat)
    : (r: Ticked<C>)
    ensures |r.world.counters| == |w.counters|
  {
    match ts
    case Nil => Ticked(Joined(n, threshold, successes, failures), w)
    case Cons(t, rest) =>
      var r := Eval(t, w);
      EvalParallel(rest, r.world, n, threshold, successes + (if r.status == Success then 1 else 0),
                   failures + if r.status == Failure then 1 else 0)
  }

  function Length<C>(ts: Forest<C>): nat {
    match ts
    case Nil => 0
    case Cons(_, rest) => 1 + Length(rest)
  }

  // ---------------------------------------------------------------- what a tick reaches

  /** Ticking the tree in this world reaches no faulty node. */
  predicate Runs<C>(t: Tree<C>, w: World<C>) {
    match t
    case Faulty => false
    case Leaf(_, _) => true
    case Sequence(children) => RunsSequence(children, w)
    case Selector(children) => RunsSelector(children, w)
    case Parallel(_, children) => RunsAll(children, w)
    case Inverter(child) => Runs(child, w)
    case Repeat(_, _, child) => Runs(child, w)
  }

  predicate RunsSequence<C>(ts: Forest<C>, w: World<C>) {
    match ts
    case Nil => true
    case Cons(t, rest) =>
      var r := Eval(t, w);
      Runs(t, w) && (r.status == Failure || r.status == Running || RunsSequence(rest, r.world))
  }

  predicate RunsSelector<C>(ts: Forest<C>, w: World<C>) {
    match ts
    case Nil => true
    case Cons(t, rest) =>
      var r := Eval(t, w);
      Runs(t, w) && (r.status == Success || r.status == Running || RunsSelector(rest, r.world))
  }

  predicate RunsAll<C>(ts: Forest<C>, w: World<C>) {
    match ts
    case Nil => true
    case Cons(t, rest) => Runs(t, w) && RunsAll(rest, Eval(t, w).world)
  }

  // ---------------------------------------------------------------- laws

  /** Two trees that cannot be told apart: same answer, same effects, same counters, same leaves ticked. */
  ghost predicate Same<C(!new)>(t: Tree<C>, u: Tree<C>) {
    forall w: World<C> :: Eval(t, w) == Eval(u, w)
  }

  function Join<C>(ts: Forest<C>, us: Forest<C>): Forest<C> {
    match ts
    case Nil => us
    case Cons(t, rest) => Cons(t, Join(rest, us))
  }

  lemma {:induction false} SequenceJoin<C>(ts: Forest<C>, us: Forest<C>, w: World<C>)
    ensures var r := EvalSequence(ts, w);
            EvalSequence(Join(ts, us), w) == if r.status == Success then EvalSequence(us, r.world) else r
  {
    match ts
    case Nil =>
    case Cons(t, rest) => SequenceJoin(rest, us, Eval(t, w).world);
  }

  lemma {:induction false} SelectorJoin<C>(ts: Forest<C>, us: Forest<C>, w: World<C>)
    ensures var r := EvalSelector(ts, w);
            EvalSelector(Join(ts, us), w) == if r.status == Failure then EvalSelector(us, r.world) else r
  {
    match ts
    case Nil =>
    case Cons(t, rest) => SelectorJoin(rest, us, Eval(t, w).world);
  }

  lemma {:induction false} SequenceAnswers<C>(ts: Forest<C>, w: World<C>)
    ensures EvalSequence(ts, w).status != Idle
  {
    match ts
    case Nil =>
    case Cons(t, rest) => SequenceAnswers(rest, Eval(t, w).world);
  }

  lemma {:induction false} SelectorAnswers<C>(ts: Forest<C>, w: World<C>)
    ensures EvalSelector(ts, w).status != Idle
  {
    match ts
    case Nil =>
    case Cons(t, rest) => SelectorAnswers(rest, Eval(t, w).world);
  }

  /** A sequence inside a sequence can be spliced into it. */
  lemma NestedSequenceFlattens<C(!new)>(front: Forest<C>, inner: Forest<C>, rest: Forest<C>)
    ensures Same(Sequence(Join(front, Cons(Sequence(inner), rest))), Sequence(Join(front, Join(inner, rest))))
  {
    forall w: World<C>
      ensures EvalSequence(Join(front, Cons(Sequence(inner), rest)), w)
           == EvalSequence(Join(front, Join(inner, rest)), w)
    {
      SequenceJoin(front, Cons(Sequence(inner), rest), w);
      SequenceJoin(front, Join(inner, rest), w);
      var v := EvalSequence(front, w).world;
      SequenceJoin(inner, rest, v);
      SequenceAnswers(inner, v);
    }
  }

  /** A selector inside a selector can be spliced into it. */
  lemma NestedSelectorFlattens<C(!new)>(front: Forest<C>, inner: Forest<C>, rest: Forest<C>)
    ensures Same(Selector(Join(front, Cons(Selector(inner), rest))), Selector(Join(front, Join(inner, rest))))
  {
    forall w: World<C>
      ensures EvalSelector(Join(front, Cons(Selector(inner), rest)), w)
           == EvalSelector(Join(front, Join(inner, rest)), w)
    {
      SelectorJoin(front, Cons(Selector(inner), rest), w);
      SelectorJoin(front, Join(inner, rest), w);
      var v := EvalSelector(front, w).world;
      SelectorJoin(inner, rest, v);
      SelectorAnswers(inner, v);
    }
  }

  function EachInverted<C>(ts: Forest<C>): Forest<C> {
    match ts
    case Nil => Nil
    case Cons(t, rest) => Cons(Inverter(t), EachInverted(rest))
  }

  lemma {:induction false} InvertedChildren<C>(ts: Forest<C>, w: World<C>)
    ensures var r := EvalSequence(ts, w);
            EvalSelector(EachInverted(ts), w) == r.(status := Inverted(r.status))
  {
    match ts
    case Nil =>
    case Cons(t, rest) => InvertedChildren(rest, Eval(t, w).world);
  }

  /** Inverting a selector of inverted children is a sequence of the children. */
  lemma InvertedSelectorIsSequence<C(!new)>(ts: Forest<C>)
    ensures Same(Inverter(Selector(EachInverted(ts))), Sequence(ts))
  {
    forall w: World<C> ensures Eval(Inverter(Selector(EachInverted(ts))), w) == Eval(Sequence(ts), w) {
      InvertedChildren(ts, w);
    }
  }

  // ---------------------------------------------------------------- parallel and repeat

  /** The answers of the children, each ticked in the world the one before it left. */
  function Answers<C>(ts: Forest<C>, w: World<C>): seq<Status> {
    match ts
    case Nil => []
    case Cons(t, rest) =>
      var r := Eval(t, w);
      [r.status] + Answers(rest, r.world)
  }

  function CountOf(answers: seq<Status>, s: Status): (n: nat)
    ensures n <= |answers|
  {
    if answers == [] then 0 else CountOf(answers[1..], s) + if answers[0] == s then 1 else 0
  }

  /** The world after all the children. */
  function AfterAll<C>(ts: Forest<C>, w: World<C>): World<C> {
    match ts
    case Nil => w
    case Cons(t, rest) => AfterAll(rest, Eval(t, w).world)
  }

  lemma {:induction false} ParallelCounts<C>(ts: Forest<C>, w: World<C>, n: nat, threshold: nat, s: nat, f: nat)
    ensures var answers := Answers(ts, w);
            && |answers| == Length(ts)
            && EvalParallel(ts, w, n, threshold, s, f)
               == Ticked(Joined(n, threshold, s + CountOf(answers, Success), f + CountOf(answers, Failure)),
                         AfterAll(ts, w))
  {
    match ts
    case Nil =>
    case Cons(t, rest) =>
      var r := Eval(t, w);
      var answers := Answers(ts, w);
      assert answers[1..] == Answers(rest, r.world);
      ParallelCounts(rest, r.world, n, threshold, s + (if r.status == Success then 1 else 0),
                     f + if r.status == Failure then 1 else 0);
  }

  lemma {:induction false} CountsTogether(answers: seq<Status>)
    ensures CountOf(answers, Success) + CountOf(answers, Failure) <= |answers|
  {
    if answers != [] {
      CountsTogether(answers[1..]);
    }
  }

  /** A parallel node ticks every child, whatever they answer; it succeeds exactly when enough of them do, and fails
      exactly when the others can no longer be enough. A threshold above the number of children never fails. */
  lemma ParallelAnswers<C>(threshold: nat, ts: Forest<C>, w: World<C>)
    requires threshold < WORD
    ensures var answers, n, r := Answers(ts, w), Length(ts), Eval(Parallel(threshold, ts), w);
            var s, f := CountOf(answers, Success), CountOf(answers, Failure);
            && |answers| == n && r.world == AfterAll(ts, w)
            && (r.status == Success <==> s >= threshold)
            && (r.status == Failure <==> n - f < threshold <= n)
  {
    ParallelCounts(ts, w, Length(ts), threshold, 0, 0);
    CountsTogether(Answers(ts, w));
  }

  // ---------------------------------------------------------------- repeat nodes

  /** The tree has a repeat node of this number. */
  predicate Mentions<C>(t: Tree<C>, id: nat) {
    match t
    case Faulty => false
    case Leaf(_, _) => false
    case Sequence(children) => SomeMentions(children, id)
    case Selector(children) => SomeMentions(children, id)
    case Parallel(_, children) => SomeMentions(children, id)
    case Inverter(child) => Mentions(child, id)
    case Repeat(i, _, child) => i == id || Mentions(child, id)
  }

  predicate SomeMentions<C>(ts: Forest<C>, id: nat) {
    match ts
    case Nil => false
    case Cons(t, rest) => Mentions(t, id) || SomeMentions(rest, id)
  }

  /** Ticking a tree leaves alone the counters of the repeat nodes it does not have. */
  lemma {:induction false} OthersCountersStay<C>(t: Tree<C>, w: World<C>, id: nat)
    requires id < |w.counters| && !Mentions(t, id)
    ensures Eval(t, w).world.counters[id] == w.counters[id]
  {
    match t
    case Faulty =>
    case Leaf(_, _) =>
    case Sequence(children) => SequenceCountersStay(children, w, id);
    case Selector(children) => SelectorCountersStay(children, w, id);
    case Parallel(threshold, children) => ParallelCountersStay(children, w, id, Length(children), threshold, 0, 0);
    case Inverter(child) => OthersCountersStay(child, w, id);
    case Repeat(_, _, child) => OthersCountersStay(child, w, id);
  }

  lemma {:induction false} SequenceCountersStay<C>(ts: Forest<C>, w: World<C>, id: nat)
    requires id < |w.counters| && !SomeMentions(ts, id)
    ensures EvalSequence(ts, w).world.counters[id] == w.counters[id]
  {
    match ts
    case Nil =>
    case Cons(t, rest) =>
      OthersCountersStay(t, w, id);
      SequenceCountersStay(rest, Eval(t, w).world, id);
  }

  lemma {:induction false} SelectorCountersStay<C>(ts: Forest<C>, w: World<C>, id: nat)
    requires id < |w.counters| && !SomeMentions(ts, id)
    ensures EvalSelector(ts, w).world.counters[id] == w.counters[id]
  {
    match ts
    case Nil =>
    case Cons(t, rest) =>
      OthersCountersStay(t, w, id);
      SelectorCountersStay(rest, Eval(t, w).world, id);
  }

  lemma {:induction false} ParallelCountersStay<C>(ts: Forest<C>, w: World<C>, id: nat, n: nat, threshold: nat,
                                                   s: nat, f: nat)
    requires id < |w.counters| && !SomeMentions(ts, id)
    ensures EvalParallel(ts, w, n, threshold, s, f).world.counters[id] == w.counters[id]
  {
    match ts
    case Nil =>
    case Cons(t, rest) =>
      var r := Eval(t, w);
      OthersCountersStay(t, w, id);
      ParallelCountersStay(rest, r.world, id, n, threshold, s + (if r.status == Success then 1 else 0),
                           f + if r.status == Failure then 1 else 0);
  }

  /** The world after `k` ticks. */
  function After<C>(t: Tree<C>, w: World<C>, k: nat): (v: World<C>)
    ensures |v.counters| == |w.counters|
  {
    if k == 0 then w else Eval(t, After(t, w, k - 1)).world
  }

  /** What the child of a repeat node answered in the first `k` ticks of the node. */
  function Asked<C>(t: Tree<C>, w: World<C>, k: nat): (answers: seq<Status>)
    requires t.Repeat?
    ensures |answers| == k
  {
    if k == 0 then [] else Asked(t, w, k - 1) + [Eval(t.child, After(t, w, k - 1)).status]
  }

  /** The successes since the last failure; what is neither failing nor running counts as one. */
  function Since(answers: seq<Status>): nat {
    if answers == [] then 0
    else
      var before := answers[..|answers| - 1];
      match answers[|answers| - 1]
      case Failure => 0
      case Running => Since(before)
      case _ => Since(before) + 1
  }

  /** What is left of `n` after whole rounds of `count`. */
  function Left(n: nat, count: nat): (r: nat)
    ensures count > 0 ==> r < count
    ensures n < count ==> r == n
  {
    if count == 0 then 0 else if n < count then n else Left(n - count, count)
  }

  lemma {:induction false} LeftNext(n: nat, count: nat)
    requires count > 0
    ensures Left(n + 1, count) == if Left(n, count) + 1 == count then 0 else Left(n, count) + 1
  {
    if n >= count {
      LeftNext(n - count, count);
    }
  }

  /** What a repeat node answers after its child's answers. */
  function RepeatAnswer(count: nat, answers: seq<Status>): Status
    requires answers != []
  {
    var last := answers[|answers| - 1];
    if last == Failure then Failure
    else if last == Running || count == 0 || Left(Since(answers), count) != 0 then Running
    else Success
  }

  lemma RepeatOnce<C>(t: Tree<C>, w: World<C>, n: nat)
    requires t.Repeat? && t.id < |w.counters| && !Mentions(t.child, t.id)
    requires w.counters[t.id] == Left(n, t.count)
    ensures var r, s := Eval(t, w), Eval(t.child, w).status;
            var m := if s == Failure then 0 else if s == Running then n else n + 1;
            && r.world.counters[t.id] == Left(m, t.count)
            && r.status == if s == Failure then Failure
                           else if s == Running || t.count == 0 || Left(m, t.count) != 0 then Running
                           else Success
  {
    OthersCountersStay(t.child, w, t.id);
    if t.count > 0 {
      LeftNext(n, t.count);
    }
  }

  lemma SinceMore(answers: seq<Status>, s: Status)
    ensures Since(answers + [s])
         == if s == Failure then 0 else if s == Running then Since(answers) else Since(answers) + 1
  {
    assert (answers + [s])[..|answers|] == answers;
  }

  /** One tick of a repeat node whose counter fits the answers so far. */
  lemma RepeatNext<C>(t: Tree<C>, v: World<C>, before: seq<Status>)
    requires t.Repeat? && t.id < |v.counters| && !Mentions(t.child, t.id)
    requires v.counters[t.id] == Left(Since(before), t.count)
    ensures var answers := before + [Eval(t.child, v).status];
            && Eval(t, v).world.counters[t.id] == Left(Since(answers), t.count)
            && Eval(t, v).status == RepeatAnswer(t.count, answers)
  {
    SinceMore(before, Eval(t.child, v).status);
    RepeatOnce(t, v, Since(before));
  }

  /** Over any child without a node of its own number, a repeat node counts the child's successes since its last failure
      modulo its count, and succeeds exactly at the ticks that complete a round of them. */
  lemma {:induction false} RepeatCounts<C>(t: Tree<C>, w: World<C>, k: nat)
    requires t.Repeat? && t.id < |w.counters| && !Mentions(t.child, t.id) && w.counters[t.id] == 0
    ensures var answers := Asked(t, w, k);
            && After(t, w, k).counters[t.id] == Left(Since(answers), t.count)
            && (k > 0 ==> Eval(t, After(t, w, k - 1)).status == RepeatAnswer(t.count, answers))
  {
    if k > 0 {
      RepeatCounts(t, w, k - 1);
      RepeatNext(t, After(t, w, k - 1), Asked(t, w, k - 1));
    }
  }

  /** Over a child that keeps succeeding it is running for `count - 1` ticks and succeeds at the `count`th. */
  lemma RepeatTakesCountTicks<C>(t: Tree<C>, w: World<C>, k: nat)
    requires t.Repeat? && t.id < |w.counters| && !Mentions(t.child, t.id) && w.counters[t.id] == 0
    requires 0 < k <= t.count && forall j :: 0 <= j < k ==> Asked(t, w, k)[j] == Success
    ensures Eval(t, After(t, w, k - 1)).status == if k == t.count then Success else Running
    ensures After(t, w, k).counters[t.id] == if k == t.count then 0 else k
  {
    RepeatCounts(t, w, k);
    AllSuccesses(Asked(t, w, k));
  }

  lemma {:induction false} AllSuccesses(answers: seq<Status>)
    requires forall j :: 0 <= j < |answers| ==> answers[j] == Success
    ensures Since(answers) == |answers|
  {
    if answers != [] {
      AllSuccesses(answers[..|answers| - 1]);
    }
  }
}
