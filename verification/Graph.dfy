/** The workflow graph: paths along `depends_on`, the three-colour cycle check of
    the loader, and the reverse-reachability closure behind the abort cascade. */
module Graph {

  type Node = string

  /** An edge (a, b) says: step a depends on step b. */
  type Edges = set<(Node, Node)>

  ghost predicate IsPath(edges: Edges, p: seq<Node>) {
    && |p| > 0
    && forall i | 0 <= i < |p| - 1 :: (p[i], p[i + 1]) in edges
  }

  /** a depends on b through one or more edges. */
  ghost predicate Reaches(edges: Edges, a: Node, b: Node) {
    exists p :: IsPath(edges, p) && |p| >= 2 && p[0] == a && p[|p| - 1] == b
  }

  ghost predicate Acyclic(edges: Edges) {
    forall n :: !Reaches(edges, n, n)
  }

  /** Every step that depends on something is listed, after all its dependencies. */
  ghost predicate DependenciesFirst(edges: Edges, order: seq<Node>) {
    && (forall e | e in edges :: e.0 in order)
    && forall i, d | 0 <= i < |order| && (order[i], d) in edges :: d in order[..i]
  }

  ghost predicate Distinct<T>(s: seq<T>) {
    forall i, j | 0 <= i < j < |s| :: s[i] != s[j]
  }

  // ---------------------------------------------------------------- paths

  lemma EdgeReaches(edges: Edges, a: Node, b: Node)
    requires (a, b) in edges
    ensures Reaches(edges, a, b)
  {
    assert IsPath(edges, [a, b]);
  }

  lemma ReachesTransitive(edges: Edges, a: Node, b: Node, c: Node)
    requires Reaches(edges, a, b) && Reaches(edges, b, c)
    ensures Reaches(edges, a, c)
  {
    var p :| IsPath(edges, p) && |p| >= 2 && p[0] == a && p[|p| - 1] == b;
    var q :| IsPath(edges, q) && |q| >= 2 && q[0] == b && q[|q| - 1] == c;
    var r := p + q[1..];
    forall i | 0 <= i < |r| - 1
      ensures (r[i], r[i + 1]) in edges
    {
      if i >= |p| - 1 {
        assert r[i] == q[i - |p| + 1] && r[i + 1] == q[i - |p| + 2];
      }
    }
    assert IsPath(edges, r);
  }

  /** Split a connection at its first edge. */
  lemma FirstEdge(edges: Edges, p: seq<Node>) returns (mid: Node)
    requires IsPath(edges, p) && |p| >= 2
    ensures mid == p[1] && (p[0], mid) in edges
    ensures IsPath(edges, p[1..]) && p[1..][|p| - 2] == p[|p| - 1]
  {
    mid := p[1];
    var q := p[1..];
    forall i | 0 <= i < |q| - 1 ensures (q[i], q[i + 1]) in edges {
      assert q[i] == p[i + 1] && q[i + 1] == p[i + 2];
    }
  }

  // --------------------------------------------- order versus cycles

  ghost function FirstIndex(order: seq<Node>, n: Node): (i: nat)
    requires n in order
    ensures i < |order| && order[i] == n && n !in order[..i]
  {
    if order[0] == n then 0 else 1 + FirstIndex(order[1..], n)
  }

  lemma {:induction false} FirstIndexBelow(order: seq<Node>, i: nat, n: Node)
    requires i <= |order| && n in order[..i]
    ensures n in order && FirstIndex(order, n) < i
  {
    if order[0] != n {
      assert order[1..][..i - 1] == order[..i][1..];
      FirstIndexBelow(order[1..], i - 1, n);
    }
  }

  /** Along every edge the first position in such an order strictly drops. */
  lemma EdgeDescends(edges: Edges, order: seq<Node>, a: Node, b: Node)
    requires DependenciesFirst(edges, order) && (a, b) in edges
    ensures a in order && b in order && FirstIndex(order, b) < FirstIndex(order, a)
  {
    var i := FirstIndex(order, a);
    assert b in order[..i];
    FirstIndexBelow(order, i, b);
  }

  lemma {:induction false} PathDescends(edges: Edges, order: seq<Node>, p: seq<Node>)
    requires DependenciesFirst(edges, order) && IsPath(edges, p) && |p| >= 2
    ensures p[0] in order && p[|p| - 1] in order
    ensures FirstIndex(order, p[|p| - 1]) < FirstIndex(order, p[0])
    decreases |p|
  {
    var mid := FirstEdge(edges, p);
    EdgeDescends(edges, order, p[0], mid);
    if |p| > 2 {
      PathDescends(edges, order, p[1..]);
    }
  }

  /** A dependencies-first listing rules out every cycle. */
  lemma OrderImpliesAcyclic(edges: Edges, order: seq<Node>)
    requires DependenciesFirst(edges, order)
    ensures Acyclic(edges)
  {
    forall n ensures !Reaches(edges, n, n) {
      if Reaches(edges, n, n) {
        var p :| IsPath(edges, p) && |p| >= 2 && p[0] == n && p[|p| - 1] == n;
        PathDescends(edges, order, p);
      }
    }
  }

  // --------------------------------------------------- the cycle check

  datatype Colour = InStack | Done

  ghost function EdgesOf(graph: map<Node, seq<Node>>): Edges {
    set n, d | n in graph && d in graph[n] :: (n, d)
  }

  ghost predicate Colouring(graph: map<Node, seq<Node>>, state: map<Node, Colour>,
                            finished: seq<Node>, expanded: seq<Node>)
  {
    && state.Keys <= graph.Keys
    && Distinct(finished) && Distinct(expanded)
    && (forall n :: n in finished <==> n in state && state[n] == Done)
    && (forall n :: n in expanded <==> n in state)
    && forall i, d | 0 <= i < |finished| && (finished[i], d) in EdgesOf(graph) :: d in finished[..i]
  }

  /** The nodes on the recursion stack, outermost first, form a path. */
  ghost predicate OnStack(graph: map<Node, seq<Node>>, state: map<Node, Colour>, stack: seq<Node>) {
    && (forall n :: n in stack <==> n in state && state[n] == InStack)
    && (stack == [] || IsPath(EdgesOf(graph), stack))
  }

  lemma OpenNode(graph: map<Node, seq<Node>>, state: map<Node, Colour>, finished: seq<Node>,
                 expanded: seq<Node>, stack: seq<Node>, node: Node)
    requires Colouring(graph, state, finished, expanded) && OnStack(graph, state, stack)
    requires node in graph && node !in state
    requires stack == [] || (stack[|stack| - 1], node) in EdgesOf(graph)
    ensures Colouring(graph, state[node := InStack], finished, expanded + [node])
    ensures OnStack(graph, state[node := InStack], stack + [node])
  {
    assert forall n :: n in expanded + [node] <==> n in expanded || n == node;
    assert forall n :: n in stack + [node] <==> n in stack || n == node;
  }

  lemma CloseNode(graph: map<Node, seq<Node>>, state: map<Node, Colour>, finished: seq<Node>,
                  expanded: seq<Node>, stack: seq<Node>, node: Node)
    requires Colouring(graph, state, finished, expanded) && OnStack(graph, state, stack + [node])
    requires node in graph && node !in stack && forall d | d in graph[node] :: d in finished
    ensures Colouring(graph, state[node := Done], finished + [node], expanded)
    ensures OnStack(graph, state[node := Done], stack)
  {
    var after := finished + [node];
    assert forall n :: n in after <==> n in finished || n == node;
    assert forall n :: n in stack + [node] <==> n in stack || n == node;
    assert node in stack + [node];
    forall i, d | 0 <= i < |after| && (after[i], d) in EdgesOf(graph) ensures d in after[..i] {
      assert i < |finished| ==> after[..i] == finished[..i];
      assert i == |finished| ==> after[..i] == finished;
    }
    if stack != [] {
      assert forall i | 0 <= i < |stack| :: stack[i] == (stack + [node])[i];
    }
  }

  lemma CycleFromStack(graph: map<Node, seq<Node>>, state: map<Node, Colour>, stack: seq<Node>, node: Node)
    requires OnStack(graph, state, stack) && node in state && state[node] == InStack
    requires stack == [] || (stack[|stack| - 1], node) in EdgesOf(graph)
    ensures Reaches(EdgesOf(graph), node, node)
  {
    assert node in stack;
    var k :| 0 <= k < |stack| && stack[k] == node;
    var p := stack[k..] + [node];
    forall i | 0 <= i < |p| - 1 ensures (p[i], p[i + 1]) in EdgesOf(graph) {
      assert p[i] == stack[k + i];
      if i + 1 < |p| - 1 {
        assert p[i + 1] == stack[k + i + 1];
      }
    }
    assert IsPath(EdgesOf(graph), p);
  }

  /** The `state` dictionary of the loader's cycle check, with its recursive visitor.
      An unvisited node has no entry. */
  class CycleCheck {
    const graph: map<Node, seq<Node>>
    var state: map<Node, Colour>
    ghost var finished: seq<Node>  // nodes in the order in which they turn Done
    ghost var expanded: seq<Node>  // nodes in the order in which they are expanded

    constructor (graph: map<Node, seq<Node>>)
      ensures this.graph == graph && state == map[] && finished == [] && expanded == []
    {
      this.graph := graph;
      state := map[];
      finished := [];
      expanded := [];
    }

    ghost predicate Valid()
      reads this
    {
      Colouring(graph, state, finished, expanded)
    }

    /** False stands for the raised error. */
    method Visit(node: Node, ghost stack: seq<Node>) returns (ok: bool)
      requires Valid() && OnStack(graph, state, stack) && node in graph
      requires forall n, d | n in graph && d in graph[n] :: d in graph
      requires stack == [] || (stack[|stack| - 1], node) in EdgesOf(graph)
      modifies this
      ensures Valid() && old(state.Keys) <= state.Keys
      ensures ok ==> OnStack(graph, state, stack) && node in finished
      ensures ok ==> forall n | n in old(finished) :: n in finished
      ensures !ok ==> exists n :: Reaches(EdgesOf(graph), n, n)
      decreases graph.Keys - state.Keys
    {
      if node in state && state[node] == InStack {
        CycleFromStack(graph, state, stack, node);
        return false;
      }
      if node in state && state[node] == Done {
        return true;
      }
      OpenNode(graph, state, finished, expanded, stack, node);
      state := state[node := InStack];
      expanded := expanded + [node];
      var deps := graph[node];
      var i := 0;
      while i < |deps|
        invariant 0 <= i <= |deps|
        invariant Valid() && OnStack(graph, state, stack + [node])
        invariant old(state.Keys) + {node} <= state.Keys
        invariant forall d | d in deps[..i] :: d in finished
        invariant forall n | n in old(finished) :: n in finished
      {
        assert (node, deps[i]) in EdgesOf(graph);
        ok := Visit(deps[i], stack + [node]);
        if !ok {
          return false;
        }
        i := i + 1;
      }
      CloseNode(graph, state, finished, expanded, stack, node);
      state := state[node := Done];
      finished := finished + [node];
      return true;
    }
  }

  /** The loader's acyclicity check. `order` lists the nodes as they turn Done and
      `expansions` lists every expansion made, also when the check fails. */
  method AssertAcyclic(graph: map<Node, seq<Node>>)
    returns (ok: bool, ghost order: seq<Node>, ghost expansions: seq<Node>)
    requires forall n, d | n in graph && d in graph[n] :: d in graph
    ensures ok <==> Acyclic(EdgesOf(graph))
    ensures ok ==> DependenciesFirst(EdgesOf(graph), order) && Distinct(order)
    ensures ok ==> forall n :: n in order <==> n in graph
    ensures Distinct(expansions) && forall n | n in expansions :: n in graph
  {
    var check := new CycleCheck(graph);
    var names := graph.Keys;
    while names != {}
      invariant check.graph == graph && check.Valid() && OnStack(graph, check.state, [])
      invariant names <= graph.Keys
      invariant forall n | n in graph.Keys - names :: n in check.finished
      decreases names
    {
      var name :| name in names;
      ok := check.Visit(name, []);
      if !ok {
        return false, check.finished, check.expanded;
      }
      names := names - {name};
    }
    order := check.finished;
    OrderImpliesAcyclic(EdgesOf(graph), order);
    return true, order, check.expanded;
  }

  // ------------------------------------------------------- the cascade

  /** The steps hit by a failure: the failed step and all that depend on it. */
  ghost predicate Hit(edges: Edges, failed: Node, n: Node) {
    n == failed || Reaches(edges, n, failed)
  }

  lemma {:induction false} ClosedSetHoldsAllHit(edges: Edges, failed: Node, bad: set<Node>, p: seq<Node>)
    requires failed in bad && forall e | e in edges && e.1 in bad :: e.0 in bad
    requires IsPath(edges, p) && p[|p| - 1] == failed
    ensures p[0] in bad
    decreases |p|
  {
    if |p| > 1 {
      var mid := FirstEdge(edges, p);
      ClosedSetHoldsAllHit(edges, failed, bad, p[1..]);
    }
  }

  /** The recursive query: a working set is extended by the steps that depend on
      it, rows already found being dropped, until nothing new appears. */
  method CascadeSteps(edges: Edges, failed: Node) returns (bad: set<Node>)
    ensures forall n :: n in bad <==> Hit(edges, failed, n)
  {
    bad := {failed};
    var working := {failed};
    var sources := set e | e in edges :: e.0;
    while working != {}
      invariant failed in bad && working <= bad <= sources + {failed}
      invariant forall n | n in bad :: Hit(edges, failed, n)
      invariant forall e | e in edges && e.1 in bad - working :: e.0 in bad
      decreases sources + {failed} - bad, |working|
    {
      var next := (set e | e in edges && e.1 in working :: e.0) - bad;
      forall n | n in next ensures Hit(edges, failed, n) {
        var e :| e in edges && e.1 in working && e.0 == n;
        EdgeReaches(edges, e.0, e.1);
        if e.1 != failed {
          ReachesTransitive(edges, e.0, e.1, failed);
        }
      }
      assert next == {} || exists n :: n in next && n in sources + {failed} - bad;
      bad, working := bad + next, next;
    }
    forall n | Hit(edges, failed, n) ensures n in bad {
      if n != failed {
        var p :| IsPath(edges, p) && |p| >= 2 && p[0] == n && p[|p| - 1] == failed;
        ClosedSetHoldsAllHit(edges, failed, bad, p);
      }
    }
  }
}
