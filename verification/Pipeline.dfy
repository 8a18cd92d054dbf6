/** The static stage graph of the dispatcher. */
module Pipeline {
  import opened Sets

  /** A stage without handler only forwards to its successors. */
  datatype Stage = Stage(hasHandler: bool, successors: seq<nat>)

  datatype Pipeline = Pipeline(stages: seq<Stage>, entry: int)

  const EMPTY := Pipeline([], -1)

  predicate HasEntry(p: Pipeline) { 0 <= p.entry < |p.stages| }

  /** Every edge leads to a stage; building keeps this. */
  ghost predicate WellBuilt(p: Pipeline) {
    forall a, i :: 0 <= a < |p.stages| && 0 <= i < |p.stages[a].successors| ==> p.stages[a].successors[i] < |p.stages|
  }

  // ---------------------------------------------------------------- cycles

  ghost predicate Edge(p: Pipeline, a: nat, b: nat) {
    a < |p.stages| && b in p.stages[a].successors
  }

  /** A walk of one edge or more. */
  ghost predicate Walk(p: Pipeline, walk: seq<nat>, a: nat, b: nat) {
    && |walk| >= 2 && walk[0] == a && walk[|walk| - 1] == b
    && forall i :: 0 <= i < |walk| - 1 ==> Edge(p, walk[i], walk[i + 1])
  }

  ghost predicate Acyclic(p: Pipeline) {
    forall walk, a :: !Walk(p, walk, a, a)
  }

  ghost predicate Reaches(p: Pipeline, a: nat, b: nat) {
    exists walk :: Walk(p, walk, a, b)
  }

  ghost function Reachable(p: Pipeline, a: nat): set<nat> {
    set b | 0 <= b < |p.stages| && Reaches(p, a, b)
  }

  /** How many stages can still run after `a`. */
  ghost function Rank(p: Pipeline, a: nat): nat { |Reachable(p, a)| }

  /** Along an edge of an acyclic graph strictly fewer stages remain. */
  lemma RankDecreases(p: Pipeline, a: nat, b: nat)
    requires WellBuilt(p) && Acyclic(p) && Edge(p, a, b)
    ensures b < |p.stages| && Rank(p, b) < Rank(p, a)
  {
    var i :| 0 <= i < |p.stages[a].successors| && p.stages[a].successors[i] == b;
    assert Walk(p, [a, b], a, b);
    forall c | c in Reachable(p, b) ensures c in Reachable(p, a) {
      var walk :| Walk(p, walk, b, c);
      assert Walk(p, [a] + walk, a, c);
    }
    assert b in Reachable(p, a) && b !in Reachable(p, b);
    ProperSubsetSize(Reachable(p, b), Reachable(p, a));
  }

  /** No chain is longer than the number of stages. */
  lemma RankIsBelowStageCount(p: Pipeline, a: nat)
    requires Acyclic(p) && a < |p.stages|
    ensures Rank(p, a) < |p.stages|
  {
    assert !Reaches(p, a, a);
    BoundedSize(Reachable(p, a) + {a}, |p.stages|);
  }

  // ---------------------------------------------------------------- adding an edge

  /** `q` is `p` with one edge more. */
  ghost predicate EdgeAdded(p: Pipeline, q: Pipeline, from: nat, to: nat) {
    |q.stages| == |p.stages| && forall a, b :: Edge(q, a, b) <==> Edge(p, a, b) || (a == from && b == to)
  }

  /** A way back to the new edge's start needs no new edge. */
  lemma {:induction false} WayBack(p: Pipeline, q: Pipeline, from: nat, to: nat, walk: seq<nat>)
    requires EdgeAdded(p, q, from, to) && from != to && Walk(q, walk, to, from)
    ensures Reaches(p, to, from)
    decreases |walk|
  {
    if i :| 0 < i < |walk| - 1 && walk[i] == from {
      WayBack(p, q, from, to, walk[..i + 1]);
    } else {
      assert Walk(p, walk, to, from);
    }
  }

  lemma CycleUsesEdge(p: Pipeline, q: Pipeline, from: nat, to: nat, walk: seq<nat>, a: nat)
    requires EdgeAdded(p, q, from, to) && Acyclic(p) && from != to && Walk(q, walk, a, a)
    ensures Reaches(p, to, from)
  {
    assert !Walk(p, walk, a, a);
    var i :| 0 <= i < |walk| - 1 && !Edge(p, walk[i], walk[i + 1]);
    assert Edge(q, walk[i], walk[i + 1]);
    var back := walk[i + 1..] + walk[1..i + 1];
    assert Walk(q, back, to, from) by {
      forall j | 0 <= j < |back| - 1 ensures Edge(q, back[j], back[j + 1]) {
        var k := i + 1 + j;
        if k < |walk| - 1 {
          assert Edge(q, walk[k], walk[k + 1]);
        } else {
          assert Edge(q, walk[k - |walk| + 1], walk[k - |walk| + 2]);
        }
      }
    }
    WayBack(p, q, from, to, back);
  }

  /** A new edge keeps the graph free of cycles exactly when there is no way back from its end to its start. */
  lemma EdgeKeepsAcyclic(p: Pipeline, q: Pipeline, from: nat, to: nat)
    requires EdgeAdded(p, q, from, to) && Acyclic(p)
    ensures Acyclic(q) <==> from != to && !Reaches(p, to, from)
  {
    if from == to {
      assert Walk(q, [from, to], from, from);
    } else if walk :| Walk(p, walk, to, from) {
      assert Walk(q, [from] + walk, from, from);
    } else {
      forall walk, a ensures !Walk(q, walk, a, a) {
        if Walk(q, walk, a, a) {
          CycleUsesEdge(p, q, from, to, walk, a);
        }
      }
    }
  }

  // ---------------------------------------------------------------- execution order

  /** The handlers below `a`, depth first, each stage before its successors. */
  ghost function Preorder(p: Pipeline, a: nat): seq<nat>
    requires WellBuilt(p) && Acyclic(p) && a < |p.stages|
    decreases Rank(p, a), |p.stages[a].successors| + 1
  {
    (if p.stages[a].hasHandler then [a] else []) + PreorderFrom(p, a, 0)
  }

  /** The handlers below the successors of `a` from the `i`-th on. */
  ghost function PreorderFrom(p: Pipeline, a: nat, i: nat): seq<nat>
    requires WellBuilt(p) && Acyclic(p) && a < |p.stages| && i <= |p.stages[a].successors|
    decreases Rank(p, a), |p.stages[a].successors| - i
  {
    if i == |p.stages[a].successors| then [] else
      var b := p.stages[a].successors[i];
      assert Edge(p, a, b);
      RankDecreases(p, a, b);
      Preorder(p, b) + PreorderFrom(p, a, i + 1)
  }

  /** The handlers below the first `i` successors of `a`. */
  ghost function PreorderUpTo(p: Pipeline, a: nat, i: nat): seq<nat>
    requires WellBuilt(p) && Acyclic(p) && a < |p.stages| && i <= |p.stages[a].successors|
  {
    if i == 0 then [] else PreorderUpTo(p, a, i - 1) + Preorder(p, p.stages[a].successors[i - 1])
  }

  lemma {:induction false} PreorderSplit(p: Pipeline, a: nat, i: nat)
    requires WellBuilt(p) && Acyclic(p) && a < |p.stages| && i <= |p.stages[a].successors|
    ensures PreorderUpTo(p, a, i) + PreorderFrom(p, a, i) == PreorderFrom(p, a, 0)
  {
    if i > 0 {
      PreorderSplit(p, a, i - 1);
      var b := p.stages[a].successors[i - 1];
      assert PreorderFrom(p, a, i - 1) == Preorder(p, b) + PreorderFrom(p, a, i);
    }
  }

  // ---------------------------------------------------------------- which calls there are

  /** `path` leads from `a` downwards, by positions in the lists of successors. */
  ghost predicate IsPath(p: Pipeline, a: nat, path: seq<nat>)
    decreases |path|
  {
    a < |p.stages| && (path == [] || (path[0] < |p.stages[a].successors|
                                      && IsPath(p, p.stages[a].successors[path[0]], path[1..])))
  }

  /** The stage a path leads to. */
  ghost function EndOf(p: Pipeline, a: nat, path: seq<nat>): (b: nat)
    requires IsPath(p, a, path)
    ensures b < |p.stages|
    decreases |path|
  {
    if path == [] then a else EndOf(p, p.stages[a].successors[path[0]], path[1..])
  }

  ghost predicate CallsHandler(p: Pipeline, a: nat, path: seq<nat>) {
    IsPath(p, a, path) && p.stages[EndOf(p, a, path)].hasHandler
  }

  /** A path comes before those that go on from it, and before those that turn off to a later successor. */
  predicate Before(x: seq<nat>, y: seq<nat>)
    decreases |x|
  {
    y != [] && (x == [] || x[0] < y[0] || (x[0] == y[0] && Before(x[1..], y[1..])))
  }

  ghost predicate InOrder(paths: seq<seq<nat>>) {
    forall i, j :: 0 <= i < j < |paths| ==> Before(paths[i], paths[j])
  }

  ghost predicate LeadTo(p: Pipeline, a: nat, paths: seq<seq<nat>>, stages: seq<nat>) {
    |paths| == |stages|
    && forall i :: 0 <= i < |paths| ==> CallsHandler(p, a, paths[i]) && EndOf(p, a, paths[i]) == stages[i]
  }

  /** One call for every path to a stage with a handler, in the order of the paths. */
  ghost predicate OnePerPath(p: Pipeline, a: nat, stages: seq<nat>) {
    exists paths :: LeadTo(p, a, paths, stages) && InOrder(paths) && forall x :: CallsHandler(p, a, x) ==> x in paths
  }

  /** The paths that turn off at the `i`-th successor. */
  ghost function Through(i: nat, paths: seq<seq<nat>>): (r: seq<seq<nat>>)
    ensures |r| == |paths| && forall k :: 0 <= k < |paths| ==> r[k] == [i] + paths[k]
  {
    seq(|paths|, k requires 0 <= k < |paths| => [i] + paths[k])
  }

  lemma ThroughInOrder(i: nat, paths: seq<seq<nat>>)
    requires InOrder(paths)
    ensures InOrder(Through(i, paths))
  {
    forall j, k | 0 <= j < k < |paths| ensures Before(Through(i, paths)[j], Through(i, paths)[k]) {
      assert ([i] + paths[j])[1..] == paths[j] && ([i] + paths[k])[1..] == paths[k];
    }
  }

  lemma ThroughLeads(p: Pipeline, a: nat, i: nat, paths: seq<seq<nat>>, stages: seq<nat>)
    requires a < |p.stages| && i < |p.stages[a].successors| && LeadTo(p, p.stages[a].successors[i], paths, stages)
    ensures LeadTo(p, a, Through(i, paths), stages)
  {
    forall k | 0 <= k < |paths|
      ensures CallsHandler(p, a, Through(i, paths)[k]) && EndOf(p, a, Through(i, paths)[k]) == stages[k]
    {
      assert ([i] + paths[k])[1..] == paths[k];
    }
  }

  /** The paths below `a` that turn off at the `i`-th successor or later. */
  ghost predicate Later(path: seq<nat>, i: nat) { path != [] && path[0] >= i }

  lemma LeadTogether(p: Pipeline, a: nat, x: seq<seq<nat>>, s: seq<nat>, y: seq<seq<nat>>, t: seq<nat>)
    requires LeadTo(p, a, x, s) && LeadTo(p, a, y, t)
    ensures LeadTo(p, a, x + y, s + t)
  {
  }

  /** First what turns off at the `i`-th successor, then what turns off later. */
  lemma TurnsInOrder(i: nat, first: seq<seq<nat>>, rest: seq<seq<nat>>)
    requires InOrder(first) && InOrder(rest) && forall k :: 0 <= k < |rest| ==> Later(rest[k], i + 1)
    ensures InOrder(Through(i, first) + rest)
    ensures forall k :: 0 <= k < |first| + |rest| ==> Later((Through(i, first) + rest)[k], i)
  {
    ThroughInOrder(i, first);
  }

  lemma TurnsAreAll(p: Pipeline, a: nat, i: nat, first: seq<seq<nat>>, rest: seq<seq<nat>>, x: seq<nat>)
    requires a < |p.stages| && i < |p.stages[a].successors| && CallsHandler(p, a, x) && Later(x, i)
    requires forall y :: CallsHandler(p, p.stages[a].successors[i], y) ==> y in first
    requires forall y :: CallsHandler(p, a, y) && Later(y, i + 1) ==> y in rest
    ensures x in Through(i, first) + rest
  {
    if x[0] == i {
      assert CallsHandler(p, p.stages[a].successors[i], x[1..]);
      var k :| 0 <= k < |first| && first[k] == x[1..];
      assert Through(i, first)[k] == [i] + x[1..] == x;
    }
  }

  lemma {:induction false} PathsBelow(p: Pipeline, a: nat) returns (paths: seq<seq<nat>>)
    requires WellBuilt(p) && Acyclic(p) && a < |p.stages|
    ensures LeadTo(p, a, paths, Preorder(p, a)) && InOrder(paths)
    ensures forall x :: CallsHandler(p, a, x) ==> x in paths
    decreases Rank(p, a), |p.stages[a].successors| + 1
  {
    var below := PathsFrom(p, a, 0);
    var own := if p.stages[a].hasHandler then [[]] else [];
    paths := own + below;
    forall x | CallsHandler(p, a, x) ensures x in paths {
      if x != [] {
        assert Later(x, 0);
        assert x in below;
      } else {
        assert paths[0] == x;
      }
    }
  }

  lemma {:induction false} PathsFrom(p: Pipeline, a: nat, i: nat) returns (paths: seq<seq<nat>>)
    requires WellBuilt(p) && Acyclic(p) && a < |p.stages| && i <= |p.stages[a].successors|
    ensures LeadTo(p, a, paths, PreorderFrom(p, a, i)) && InOrder(paths)
    ensures forall k :: 0 <= k < |paths| ==> Later(paths[k], i)
    ensures forall x :: CallsHandler(p, a, x) && Later(x, i) ==> x in paths
    decreases Rank(p, a), |p.stages[a].successors| - i
  {
    if i == |p.stages[a].successors| {
      paths := [];
    } else {
      var b := p.stages[a].successors[i];
      assert Edge(p, a, b);
      RankDecreases(p, a, b);
      var first := PathsBelow(p, b);
      var rest := PathsFrom(p, a, i + 1);
      ThroughLeads(p, a, i, first, Preorder(p, b));
      LeadTogether(p, a, Through(i, first), Preorder(p, b), rest, PreorderFrom(p, a, i + 1));
      TurnsInOrder(i, first, rest);
      paths := Through(i, first) + rest;
      forall x | CallsHandler(p, a, x) && Later(x, i) ensures x in paths {
        TurnsAreAll(p, a, i, first, rest, x);
      }
    }
  }

  /** The preorder is one call for every path to a stage with a handler: a stage before those below it, and all below an
      earlier successor before those below a later one. */
  lemma PreorderIsEveryPath(p: Pipeline, a: nat)
    requires WellBuilt(p) && Acyclic(p) && a < |p.stages|
    ensures OnePerPath(p, a, Preorder(p, a))
  {
    var paths := PathsBelow(p, a);
  }

  lemma {:induction false} BeforeIsStrict(x: seq<nat>, y: seq<nat>)
    requires Before(x, y)
    ensures !Before(y, x) && x != y
    decreases |x|
  {
    if x != [] && x[0] == y[0] {
      BeforeIsStrict(x[1..], y[1..]);
    }
  }

  /** Sequences in order that hold the same paths are the same. */
  lemma {:induction false} OrderIsUnique(x: seq<seq<nat>>, y: seq<seq<nat>>)
    requires InOrder(x) && InOrder(y) && (forall z :: z in x <==> z in y)
    ensures x == y
  {
    if y != [] {
      assert y[0] in y;
    }
    if x != [] {
      assert x[0] in y;
      FirstIsFirst(x, y);
      forall z ensures z in x[1..] <==> z in y[1..] {
        RestOfOrder(x, z);
        RestOfOrder(y, z);
      }
      OrderIsUnique(x[1..], y[1..]);
      assert x == [x[0]] + x[1..] && y == [y[0]] + y[1..];
    }
  }

  lemma FirstIsFirst(x: seq<seq<nat>>, y: seq<seq<nat>>)
    requires InOrder(x) && InOrder(y) && x != [] && y != [] && x[0] in y && y[0] in x
    ensures x[0] == y[0]
  {
    if x[0] != y[0] {
      var i :| 0 <= i < |y| && y[i] == x[0];
      var j :| 0 <= j < |x| && x[j] == y[0];
      BeforeIsStrict(y[0], y[i]);
    }
  }

  lemma RestOfOrder(x: seq<seq<nat>>, z: seq<nat>)
    requires InOrder(x) && x != []
    ensures z in x[1..] <==> z in x && z != x[0]
  {
    if z in x[1..] {
      var i :| 0 < i < |x| && x[i] == z;
      BeforeIsStrict(x[0], z);
    }
  }

  /** There is only one such sequence of calls. */
  lemma OnePerPathIsUnique(p: Pipeline, a: nat, s: seq<nat>, t: seq<nat>)
    requires OnePerPath(p, a, s) && OnePerPath(p, a, t)
    ensures s == t
  {
    var x :| LeadTo(p, a, x, s) && InOrder(x) && forall z :: CallsHandler(p, a, z) ==> z in x;
    var y :| LeadTo(p, a, y, t) && InOrder(y) && forall z :: CallsHandler(p, a, z) ==> z in y;
    OrderIsUnique(x, y);
  }

  lemma {:induction false} PathOfWalk(p: Pipeline, walk: seq<nat>, a: nat, b: nat) returns (path: seq<nat>)
    requires WellBuilt(p) && Walk(p, walk, a, b)
    ensures IsPath(p, a, path) && EndOf(p, a, path) == b
    decreases |walk|
  {
    assert Edge(p, walk[0], walk[1]);
    var i :| 0 <= i < |p.stages[a].successors| && p.stages[a].successors[i] == walk[1];
    var rest := [];
    if |walk| > 2 {
      rest := PathOfWalk(p, walk[1..], walk[1], b);
    }
    path := [i] + rest;
    assert path[1..] == rest;
  }

  lemma {:induction false} WalkOfPath(p: Pipeline, a: nat, path: seq<nat>)
    requires IsPath(p, a, path)
    ensures EndOf(p, a, path) == a || Reaches(p, a, EndOf(p, a, path))
    decreases |path|
  {
    if path != [] {
      var c, b := p.stages[a].successors[path[0]], EndOf(p, a, path);
      assert Edge(p, a, c);
      WalkOfPath(p, c, path[1..]);
      if b == c {
        assert Walk(p, [a, c], a, b);
      } else {
        var walk :| Walk(p, walk, c, b);
        assert Walk(p, [a] + walk, a, b);
      }
    }
  }

  /** The stages called are those with a handler that the first one is or reaches. */
  lemma CalledIffReached(p: Pipeline, a: nat, b: nat)
    requires WellBuilt(p) && Acyclic(p) && a < |p.stages| && b < |p.stages|
    ensures b in Preorder(p, a) <==> p.stages[b].hasHandler && (a == b || Reaches(p, a, b))
  {
    var paths := PathsBelow(p, a);
    if b in Preorder(p, a) {
      var i :| 0 <= i < |paths| && Preorder(p, a)[i] == b;
      WalkOfPath(p, a, paths[i]);
    }
    if p.stages[b].hasHandler && (a == b || Reaches(p, a, b)) {
      var path := [];
      if a != b {
        var walk :| Walk(p, walk, a, b);
        path := PathOfWalk(p, walk, a, b);
      }
      assert CallsHandler(p, a, path);
      var i :| 0 <= i < |paths| && paths[i] == path;
      assert Preorder(p, a)[i] == b;
    }
  }
}
