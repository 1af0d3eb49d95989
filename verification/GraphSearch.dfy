/** The two searches of the coordination adapter: the depth-first cycle finder and the worklist of dependents. */
module GraphSearch {
  import opened Wrappers
  import opened Tables
  import opened Queries
  import opened DependencyGraph

  function Successors(g: Edges, x: nat): set<nat> { set e | e in g && e.0 == x :: e.1 }

  function Predecessors(g: Edges, x: nat): set<nat> { set e | e in g && e.1 == x :: e.0 }

  /** A walk that ends where it began. */
  predicate IsCycle(g: Edges, p: seq<nat>) { IsWalk(g, p) && p[0] == p[|p| - 1] }

  lemma CycleIsCyclic(g: Edges, p: seq<nat>)
    requires IsCycle(g, p)
    ensures Cyclic(g)
  { assert Reaches(g, p[0], p[0]); }

  /** Where the node stands on the path. */
  method IndexOf(path: seq<nat>, node: nat) returns (i: nat)
    requires node in path
    ensures i < |path| && path[i] == node && node !in path[..i]
  {
    i := 0;
    while path[i] != node
      invariant i < |path| && node !in path[..i] && node in path[i..]
      decreases |path| - i
    {
      i := i + 1;
    }
  }

  /** `_find_cycle_locked` */
  class CycleFinder {
    const graph: Edges
    var visiting: set<nat>
    var visited: set<nat>
    var path: seq<nat>

    constructor (g: Edges)
      ensures graph == g && Valid() && path == [] && visited == {}
    {
      graph := g;
      visiting, visited, path := {}, {}, [];
    }

    /** The path is a simple walk of nodes under visit; no cycle goes through a visited node. */
    ghost predicate Valid() reads this {
      && visiting <= Nodes(graph) && visiting !! visited
      && (forall x :: x in visiting <==> x in path)
      && (forall i {:trigger path[i]} :: 0 <= i < |path| - 1 ==> (path[i], path[i + 1]) in graph)
      && ClosedForward(graph, visited)
      && forall x :: x in visited ==> !Reaches(graph, x, x)
    }

    method Visit(node: nat) returns (cycle: seq<nat>)
      requires Valid() && node in Nodes(graph)
      requires path != [] ==> (path[|path| - 1], node) in graph
      modifies this
      ensures cycle == [] ==> Valid() && path == old(path) && visiting == old(visiting) && old(visited) + {node} <= visited
      ensures cycle != [] ==> IsCycle(graph, cycle)
      decreases Nodes(graph) - visiting
    {
      if node in visiting {
        var i := IndexOf(path, node);
        return path[i..] + [node];
      }
      if node in visited { return []; }
      Enter(node);
      var deps := Select(Successors(graph, node));
      var i := 0;
      while i < |deps|
        invariant i <= |deps|
        invariant Valid() && path == old(path) + [node] && visiting == old(visiting) + {node}
        invariant old(visited) <= visited && forall j :: 0 <= j < i ==> deps[j] in visited
      {
        assert deps[i] in Successors(graph, node);
        assert (node, deps[i]) in graph;
        cycle := Visit(deps[i]);
        if cycle != [] { return; }
        i := i + 1;
      }
      Leave(node, deps);
      cycle := [];
    }

    /** The node is under visit. */
    method Enter(node: nat)
      requires Valid() && node in Nodes(graph) && node !in visiting && node !in visited
      requires path != [] ==> (path[|path| - 1], node) in graph
      modifies this`visiting, this`path
      ensures Valid() && path == old(path) + [node] && visiting == old(visiting) + {node}
    { visiting, path := visiting + {node}, path + [node]; }

    /** The node, last on the path, has been visited. */
    method Leave(node: nat, deps: seq<nat>)
      requires Valid() && path != [] && path[|path| - 1] == node && node !in path[..|path| - 1]
      requires Lists(deps, Successors(graph, node)) && forall j :: 0 <= j < |deps| ==> deps[j] in visited
      modifies this
      ensures Valid() && path == old(path)[..|old(path)| - 1] && visiting == old(visiting) - {node}
      ensures visited == old(visited) + {node}
    {
      Finished(node, deps);
      path, visiting, visited := path[..|path| - 1], visiting - {node}, visited + {node};
    }

    /** When all dependencies of a node are visited, no cycle goes through it. */
    lemma Finished(node: nat, deps: seq<nat>)
      requires Valid() && node !in visited && Lists(deps, Successors(graph, node))
      requires forall j :: 0 <= j < |deps| ==> deps[j] in visited
      ensures ClosedForward(graph, visited + {node}) && !Reaches(graph, node, node)
    {
      forall e | e in graph && e.0 == node ensures e.1 in visited { assert e.1 in deps; }
      if Reaches(graph, node, node) {
        var m := FirstEdge(graph, node, node);
        assert (node, m) in graph && m in visited;
        ReachStaysIn(graph, visited, m, node);
      }
    }

    /** Terminates, finds no cycle exactly when there is none, and otherwise returns a cycle of the graph. */
    method Find() returns (cycle: seq<nat>)
      requires Valid() && path == [] && visited == {}
      modifies this
      ensures cycle == [] <==> !Cyclic(graph)
      ensures cycle != [] ==> IsCycle(graph, cycle)
    {
      var nodes := Select(Nodes(graph));
      var i := 0;
      while i < |nodes|
        invariant i <= |nodes| && Valid() && path == []
        invariant forall j :: 0 <= j < i ==> nodes[j] in visited
      {
        assert nodes[i] in Nodes(graph);
        cycle := Visit(nodes[i]);
        if cycle != [] {
          CycleIsCyclic(graph, cycle);
          return;
        }
        i := i + 1;
      }
      cycle := [];
      forall x: nat ensures !Reaches(graph, x, x) {
        ReachesFromNode(graph, x, x);
        if x in Nodes(graph) { assert x in nodes; }
      }
    }
  }

  /** The same as a call without state. */
  method FindCycle(g: Edges) returns (cycle: seq<nat>)
    ensures cycle == [] <==> !Cyclic(g)
    ensures cycle != [] ==> IsCycle(g, cycle)
  {
    var finder := new CycleFinder(g);
    cycle := finder.Find();
  }

  // ---- The worklist ----

  /** The dependents of one node that were not seen before. */
  method Unseen(g: Edges, current: nat, seen: set<nat>) returns (found: seq<nat>)
    ensures Lists(found, Predecessors(g, current) - seen)
  {
    var children := Select(Predecessors(g, current));
    found := [];
    var i := 0;
    while i < |children|
      invariant i <= |children|
      invariant forall x :: x in found <==> x in children[..i] && x !in seen
      invariant Distinct(found)
    {
      var child := children[i];
      assert children[..i + 1] == children[..i] + [child];
      if child !in seen { found := found + [child]; }
      i := i + 1;
    }
    assert children[..i] == children;
  }

  /** Seen nodes stand in the list in the order in which they were found, and all are the root or depend on it. */
  ghost predicate Found(g: Edges, root: nat, seen: set<nat>, result: seq<nat>) {
    && Distinct([root] + result) && (forall x :: x in seen <==> x in [root] + result)
    && forall x :: x in result ==> x in Dependents(g, root)
  }

  lemma FindMore(g: Edges, root: nat, seen: set<nat>, result: seq<nat>, current: nat, more: seq<nat>)
    requires Found(g, root, seen, result) && current in [root] + result && Lists(more, Predecessors(g, current) - seen)
    ensures Found(g, root, seen + (set x | x in more), result + more)
    ensures forall e :: e in g && e.1 == current ==> e.0 in seen || e.0 in more
  {
    forall x | x in more ensures x in Dependents(g, root) { ChildDepends(g, x, current, root); }
    DistinctTogether([root] + result, more);
    assert [root] + (result + more) == ([root] + result) + more;
    forall e | e in g && e.1 == current ensures e.0 in seen || e.0 in more { assert e.0 in Predecessors(g, current); }
  }

  /** The nodes before the queue are done: everything that depends on them has been seen. */
  ghost predicate Working(g: Edges, root: nat, seen: set<nat>, result: seq<nat>, done: seq<nat>, queue: seq<nat>) {
    && done + queue == [root] + result && Found(g, root, seen, result)
    && forall e :: e in g && e.1 in done ==> e.0 in seen
  }

  lemma WorkOn(g: Edges, root: nat, seen: set<nat>, result: seq<nat>, done: seq<nat>, queue: seq<nat>, more: seq<nat>)
    requires Working(g, root, seen, result, done, queue) && queue != [] && Lists(more, Predecessors(g, queue[0]) - seen)
    ensures Working(g, root, seen + (set x | x in more), result + more, done + [queue[0]], queue[1..] + more)
  {
    var current := queue[0];
    NextInList(done, queue, [root] + result);
    FindMore(g, root, seen, result, current, more);
    Requeue(done, queue, more);
    assert ([root] + result) + more == [root] + (result + more);
  }

  lemma Requeue(done: seq<nat>, queue: seq<nat>, more: seq<nat>)
    requires queue != []
    ensures (done + [queue[0]]) + (queue[1..] + more) == (done + queue) + more
  { assert queue == [queue[0]] + queue[1..]; }

  /** Every round takes a new node. */
  lemma WorkShrinks(g: Edges, root: nat, seen: set<nat>, result: seq<nat>, done: seq<nat>, queue: seq<nat>)
    requires Working(g, root, seen, result, done, queue) && queue != []
    ensures (Nodes(g) + {root}) - (set x | x in done + [queue[0]]) < (Nodes(g) + {root}) - (set x | x in done)
  {
    var current := queue[0];
    NextInList(done, queue, [root] + result);
    assert current in (Nodes(g) + {root}) - (set x | x in done);
    assert current in done + [current] && forall x :: x in done ==> x in done + [current];
  }

  lemma WorkDone(g: Edges, root: nat, seen: set<nat>, result: seq<nat>, done: seq<nat>)
    requires Working(g, root, seen, result, done, [])
    ensures Lists(result, Dependents(g, root) - {root})
  {
    assert done == [root] + result;
    forall x | x in Dependents(g, root) && x != root ensures x in result { ReachStaysIn(g, seen, x, root); }
    TailDistinct(root, result);
  }

  /** `_descendants_locked`: everything that depends on the root, directly or not, each once. */
  method Descendants(g: Edges, root: nat) returns (result: seq<nat>)
    ensures Lists(result, Dependents(g, root) - {root})
  {
    result := [];
    var seen := {root};
    var queue := [root];
    ghost var done: seq<nat> := [];
    while queue != []
      invariant Working(g, root, seen, result, done, queue)
      decreases (Nodes(g) + {root}) - (set x | x in done)
    {
      var current := queue[0];
      var more := Unseen(g, current, seen);
      WorkOn(g, root, seen, result, done, queue, more);
      WorkShrinks(g, root, seen, result, done, queue);
      seen, result, queue := seen + (set x | x in more), result + more, queue[1..] + more;
      done := done + [current];
    }
    WorkDone(g, root, seen, result, done);
  }

  lemma NextInList(done: seq<nat>, queue: seq<nat>, all: seq<nat>)
    requires done + queue == all && queue != [] && Distinct(all)
    ensures queue[0] in all && queue[0] !in done
  {
    assert all[|done|] == queue[0];
    forall i | 0 <= i < |done| ensures done[i] != queue[0] { assert all[i] == done[i]; }
  }

  lemma ChildDepends(g: Edges, x: nat, current: nat, root: nat)
    requires x in Predecessors(g, current) && (current == root || current in Dependents(g, root))
    ensures x in Dependents(g, root)
  {
    assert (x, current) in g;
    EdgeReaches(g, x, current);
    if current != root { ReachesTwice(g, x, current, root); }
    assert (x, current).0 in Nodes(g);
  }

  lemma DistinctTogether(a: seq<nat>, b: seq<nat>)
    requires Distinct(a) && Distinct(b) && forall x :: x in b ==> x !in a
    ensures Distinct(a + b)
  {
    forall i, j | 0 <= i < j < |a + b| ensures (a + b)[i] != (a + b)[j] {
      if i < |a| <= j { assert (a + b)[j] in b && (a + b)[i] in a; }
    }
  }

  lemma TailDistinct(x: nat, rest: seq<nat>)
    requires Distinct([x] + rest)
    ensures Distinct(rest) && x !in rest
  {
    forall i, j | 0 <= i < j < |rest| ensures rest[i] != rest[j] { assert ([x] + rest)[i + 1] != ([x] + rest)[j + 1]; }
    forall i | 0 <= i < |rest| ensures rest[i] != x { assert ([x] + rest)[0] != ([x] + rest)[i + 1]; }
  }
}
