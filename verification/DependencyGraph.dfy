/** Directed graphs as sets of edges: an edge (x, y) says that x depends on y. */
module DependencyGraph {

  type Edges = set<(nat, nat)>

  /** A walk of at least one edge. */
  predicate IsWalk(g: Edges, p: seq<nat>) {
    |p| >= 2 && forall i {:trigger p[i]} :: 0 <= i < |p| - 1 ==> (p[i], p[i + 1]) in g
  }

  ghost predicate Reaches(g: Edges, x: nat, y: nat) {
    exists p :: IsWalk(g, p) && p[0] == x && p[|p| - 1] == y
  }

  ghost predicate Cyclic(g: Edges) { exists x :: Reaches(g, x, x) }

  function Nodes(g: Edges): (r: set<nat>) { (set e | e in g :: e.0) + (set e | e in g :: e.1) }

  /** Everything that depends on `root`, directly or through other nodes. */
  ghost function Dependents(g: Edges, root: nat): set<nat> {
    set x | x in Nodes(g) && Reaches(g, x, root)
  }

  lemma EdgeReaches(g: Edges, x: nat, y: nat)
    requires (x, y) in g
    ensures Reaches(g, x, y)
  {
    assert IsWalk(g, [x, y]);
  }

  lemma ReachesTwice(g: Edges, x: nat, y: nat, z: nat)
    requires Reaches(g, x, y) && Reaches(g, y, z)
    ensures Reaches(g, x, z)
  {
    var p :| IsWalk(g, p) && p[0] == x && p[|p| - 1] == y;
    var q :| IsWalk(g, q) && q[0] == y && q[|q| - 1] == z;
    var r := p + q[1..];
    forall i | 0 <= i < |r| - 1 ensures (r[i], r[i + 1]) in g {
      if i < |p| - 1 { assert r[i] == p[i] && r[i + 1] == p[i + 1]; }
      else { assert r[i] == q[i - (|p| - 1)] && r[i + 1] == q[i - (|p| - 1) + 1]; }
    }
    assert IsWalk(g, r) && r[0] == x && r[|r| - 1] == z;
  }

  lemma FirstEdge(g: Edges, x: nat, y: nat) returns (m: nat)
    requires Reaches(g, x, y)
    ensures (x, m) in g && (m == y || Reaches(g, m, y))
  {
    var p :| IsWalk(g, p) && p[0] == x && p[|p| - 1] == y;
    m := p[1];
    assert (p[0], p[0 + 1]) in g;
    if |p| > 2 {
      var q := p[1..];
      assert IsWalk(g, q) && q[0] == m && q[|q| - 1] == y;
    }
  }

  lemma ReachesMore(g: Edges, h: Edges, x: nat, y: nat)
    requires g <= h && Reaches(g, x, y)
    ensures Reaches(h, x, y)
  {
    var p :| IsWalk(g, p) && p[0] == x && p[|p| - 1] == y;
    assert IsWalk(h, p);
  }

  lemma ReachesFromNode(g: Edges, x: nat, y: nat)
    ensures Reaches(g, x, y) ==> x in Nodes(g)
  {
    if Reaches(g, x, y) {
      var m := FirstEdge(g, x, y);
      assert (x, m).0 in Nodes(g);
    }
  }

  predicate ClosedForward(g: Edges, s: set<nat>) { forall e :: e in g && e.0 in s ==> e.1 in s }

  predicate ClosedBackward(g: Edges, s: set<nat>) { forall e :: e in g && e.1 in s ==> e.0 in s }

  lemma {:induction false} WalkStaysIn(g: Edges, s: set<nat>, p: seq<nat>)
    requires IsWalk(g, p)
    ensures ClosedForward(g, s) && p[0] in s ==> p[|p| - 1] in s
    ensures ClosedBackward(g, s) && p[|p| - 1] in s ==> p[0] in s
    decreases |p|
  {
    assert (p[0], p[0 + 1]) in g;
    if |p| > 2 {
      assert IsWalk(g, p[1..]);
      WalkStaysIn(g, s, p[1..]);
    }
  }

  lemma ReachStaysIn(g: Edges, s: set<nat>, x: nat, y: nat)
    requires Reaches(g, x, y)
    ensures ClosedForward(g, s) && x in s ==> y in s
    ensures ClosedBackward(g, s) && y in s ==> x in s
  {
    var p :| IsWalk(g, p) && p[0] == x && p[|p| - 1] == y;
    WalkStaysIn(g, s, p);
  }
}
