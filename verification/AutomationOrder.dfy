/** The layered topological order of the automation planner (tools/automation_plan.py). */
module AutomationOrder {
  import opened DependencyGraph

  datatype Step = Step(id: nat, deps: set<nat>)

  datatype Plan = Ordered(ids: seq<nat>) | CycleError

  function Ids(steps: seq<Step>): set<nat> { set i | 0 <= i < |steps| :: steps[i].id }

  /** What `_normalize` establishes: ids differ, and dependencies are other known steps. */
  predicate Normalized(steps: seq<Step>) {
    && (forall i, j :: 0 <= i < j < |steps| ==> steps[i].id != steps[j].id)
    && (forall i :: 0 <= i < |steps| ==> steps[i].deps <= Ids(steps) && steps[i].id !in steps[i].deps)
  }

  function Graph(steps: seq<Step>): Edges { set i, y | 0 <= i < |steps| && y in steps[i].deps :: (steps[i].id, y) }

  /** A dependency chain of `n` edges begins at `x`. */
  ghost predicate Chain(g: Edges, x: nat, n: nat)
    decreases n
  {
    n == 0 || exists y: nat :: (x, y) in g && Chain(g, y, n - 1)
  }

  /** The longest dependency chain that begins at `x` has `n` edges. */
  ghost predicate Depth(g: Edges, x: nat, n: nat) { Chain(g, x, n) && !Chain(g, x, n + 1) }

  predicate At(steps: seq<Step>, x: nat, i: nat) { i < |steps| && steps[i].id == x }

  /** Deeper steps come later, and steps of one depth in the order of the specification. */
  ghost predicate Before(steps: seq<Step>, x: nat, y: nat) {
    forall m: nat, n: nat, i: nat, j: nat ::
      Depth(Graph(steps), x, m) && Depth(Graph(steps), y, n) && At(steps, x, i) && At(steps, y, j) ==> m < n || (m == n && i < j)
  }

  // ---- Chains ----

  lemma {:induction false} ShorterChain(g: Edges, x: nat, n: nat)
    requires Chain(g, x, n + 1)
    ensures Chain(g, x, n)
    decreases n
  {
    if n > 0 {
      var y: nat :| (x, y) in g && Chain(g, y, n);
      ShorterChain(g, y, n - 1);
    }
  }

  lemma {:induction false} ShorterChains(g: Edges, x: nat, m: nat, n: nat)
    requires Chain(g, x, n) && m <= n
    ensures Chain(g, x, m)
    decreases n - m
  {
    if m < n {
      ShorterChain(g, x, n - 1);
      ShorterChains(g, x, m, n - 1);
    }
  }

  /** A step has at most one depth. */
  lemma DepthUnique(g: Edges, x: nat, m: nat, n: nat)
    requires Depth(g, x, m) && Depth(g, x, n)
    ensures m == n
  {
    if m < n { ShorterChains(g, x, m + 1, n); }
    if n < m { ShorterChains(g, x, n + 1, m); }
  }

  /** Chains are walks. */
  lemma {:induction false} ChainIsWalk(g: Edges, x: nat, n: nat)
    requires n >= 1
    ensures Chain(g, x, n) <==> exists p :: IsWalk(g, p) && |p| == n + 1 && p[0] == x
    decreases n
  {
    if Chain(g, x, n) {
      var y: nat :| (x, y) in g && Chain(g, y, n - 1);
      if n == 1 { assert IsWalk(g, [x, y]); }
      else {
        ChainIsWalk(g, y, n - 1);
        var q :| IsWalk(g, q) && |q| == n && q[0] == y;
        var p := [x] + q;
        forall i | 0 <= i < |p| - 1 ensures (p[i], p[i + 1]) in g {
          if i > 0 { assert p[i] == q[i - 1] && p[i + 1] == q[i - 1 + 1]; }
        }
        assert IsWalk(g, p);
      }
    }
    if p :| IsWalk(g, p) && |p| == n + 1 && p[0] == x {
      assert (p[0], p[0 + 1]) in g;
      if n > 1 {
        assert IsWalk(g, p[1..]);
        ChainIsWalk(g, p[1], n - 1);
      }
    }
  }

  /** A step that reaches a cycle begins chains of every length. */
  lemma {:induction false} CycleChains(g: Edges, x: nat, y: nat, n: nat)
    requires Reaches(g, x, x) && Reaches(g, y, x)
    ensures Chain(g, y, n)
    decreases n
  {
    if n > 0 {
      var m := FirstEdge(g, y, x);
      CycleChains(g, x, m, n - 1);
    }
  }

  // ---- A set without a way out holds a cycle ----

  ghost predicate HasNext(g: Edges, s: set<nat>, x: nat) { exists y :: y in s && (x, y) in g }

  ghost predicate Stuck(g: Edges, s: set<nat>) { forall x {:trigger HasNext(g, s, x)} :: x in s ==> HasNext(g, s, x) }

  predicate IsTrail(g: Edges, p: seq<nat>) {
    && p != [] && (forall i {:trigger p[i]} :: 0 <= i < |p| - 1 ==> (p[i], p[i + 1]) in g)
    && (forall i, j :: 0 <= i < j < |p| ==> p[i] != p[j])
  }

  lemma {:induction false} TrailFits(p: seq<nat>, s: set<nat>)
    requires (forall i, j :: 0 <= i < j < |p| ==> p[i] != p[j]) && forall x :: x in p ==> x in s
    ensures |p| <= |s|
    decreases |p|
  {
    if p != [] {
      assert p[0] in p && p[0] in s;
      forall x | x in p[1..] ensures x in s - {p[0]} { }
      TrailFits(p[1..], s - {p[0]});
    }
  }

  lemma CloseTrail(g: Edges, p: seq<nat>, k: nat)
    requires IsTrail(g, p) && k < |p| && (p[|p| - 1], p[k]) in g
    ensures Cyclic(g)
  {
    var c := p[k..] + [p[k]];
    forall i | 0 <= i < |c| - 1 ensures (c[i], c[i + 1]) in g {
      if i < |c| - 2 { assert c[i] == p[k + i] && c[i + 1] == p[k + i + 1] && (p[k + i], p[k + i + 1]) in g; }
      else { assert c[i] == p[|p| - 1] && c[i + 1] == p[k]; }
    }
    assert IsWalk(g, c);
    assert Reaches(g, p[k], p[k]);
  }

  lemma GrowTrail(g: Edges, p: seq<nat>, y: nat)
    requires IsTrail(g, p) && y !in p && (p[|p| - 1], y) in g
    ensures IsTrail(g, p + [y])
  {
    var q := p + [y];
    forall i | 0 <= i < |q| - 1 ensures (q[i], q[i + 1]) in g {
      assert q[i] == p[i];
      if i < |p| - 1 { assert q[i + 1] == p[i + 1]; }
    }
  }

  lemma {:induction false} TrailRunsIntoItself(g: Edges, s: set<nat>, p: seq<nat>)
    requires Stuck(g, s) && IsTrail(g, p) && forall x :: x in p ==> x in s
    ensures Cyclic(g)
    decreases |s| - |p|
  {
    var last := p[|p| - 1];
    assert last in p && HasNext(g, s, last);
    var y :| y in s && (last, y) in g;
    if y in p {
      var k :| 0 <= k < |p| && p[k] == y;
      CloseTrail(g, p, k);
    } else {
      GrowTrail(g, p, y);
      TrailFits(p + [y], s);
      TrailRunsIntoItself(g, s, p + [y]);
    }
  }

  lemma StuckIsCyclic(g: Edges, s: set<nat>)
    requires s != {} && Stuck(g, s)
    ensures Cyclic(g)
  {
    var x :| x in s;
    TrailRunsIntoItself(g, s, [x]);
  }

  // ---- The order ----

  function Start(steps: seq<Step>): map<nat, set<nat>>
    requires Normalized(steps)
  {
    map i | 0 <= i < |steps| :: steps[i].id := steps[i].deps
  }

  lemma StartIsRound(steps: seq<Step>)
    requires Normalized(steps)
    ensures Round(steps, Start(steps), 0) && Start(steps).Keys == Ids(steps)
  {
    forall i | 0 <= i < |steps| ensures steps[i].id in Start(steps) && Start(steps)[steps[i].id] == steps[i].deps { }
  }

  /** After `k` rounds the remaining steps are those with a chain of `k` edges, each with its remaining dependencies. */
  ghost predicate Round(steps: seq<Step>, remaining: map<nat, set<nat>>, k: nat) {
    && (forall i :: 0 <= i < |steps| ==> (steps[i].id in remaining <==> Chain(Graph(steps), steps[i].id, k)))
    && remaining.Keys <= Ids(steps)
    && Pruned(steps, remaining)
  }

  predicate Pruned(steps: seq<Step>, remaining: map<nat, set<nat>>) {
    forall i :: 0 <= i < |steps| && steps[i].id in remaining ==> remaining[steps[i].id] == steps[i].deps * remaining.Keys
  }

  lemma EdgeOfStep(steps: seq<Step>, i: nat, y: nat)
    requires Normalized(steps) && i < |steps|
    ensures (steps[i].id, y) in Graph(steps) <==> y in steps[i].deps
  {
    if (steps[i].id, y) in Graph(steps) {
      var j, z :| 0 <= j < |steps| && z in steps[j].deps && (steps[j].id, z) == (steps[i].id, y);
      assert j == i;
    }
  }

  /** A remaining step is free of remaining dependencies exactly when its depth is the number of the round. */
  lemma ReadyHasDepth(steps: seq<Step>, remaining: map<nat, set<nat>>, k: nat, i: nat)
    requires Normalized(steps) && Round(steps, remaining, k) && i < |steps| && steps[i].id in remaining
    ensures remaining[steps[i].id] == {} <==> Depth(Graph(steps), steps[i].id, k)
  {
    var g := Graph(steps);
    if remaining[steps[i].id] == {} {
      forall y: nat | (steps[i].id, y) in g ensures !Chain(g, y, k) {
        EdgeOfStep(steps, i, y);
        assert y in Ids(steps) && y !in steps[i].deps * remaining.Keys;
      }
    } else {
      var y :| y in remaining[steps[i].id];
      EdgeOfStep(steps, i, y);
      assert y in Ids(steps) && Chain(g, y, k);
      assert Chain(g, steps[i].id, k + 1);
    }
  }

  method Ready(steps: seq<Step>, remaining: map<nat, set<nat>>) returns (ready: seq<nat>, ghost at: seq<nat>)
    requires Normalized(steps)
    ensures |at| == |ready| && (forall j :: 0 <= j < |ready| ==> At(steps, ready[j], at[j]))
    ensures forall i, j :: 0 <= i < j < |at| ==> at[i] < at[j]
    ensures forall x :: x in ready <==> x in Ids(steps) && x in remaining && remaining[x] == {}
  {
    ready, at := [], [];
    var i := 0;
    while i < |steps|
      invariant i <= |steps| && |at| == |ready| && forall j :: 0 <= j < |ready| ==> At(steps, ready[j], at[j])
      invariant forall j :: 0 <= j < |at| ==> at[j] < i
      invariant forall i, j :: 0 <= i < j < |at| ==> at[i] < at[j]
      invariant forall x :: x in ready ==> x in Ids(steps) && x in remaining && remaining[x] == {}
      invariant forall j :: 0 <= j < i && steps[j].id in remaining && remaining[steps[j].id] == {} ==> steps[j].id in ready
    {
      var x := steps[i].id;
      assert x in Ids(steps);
      if x in remaining && remaining[x] == {} { ready, at := ready + [x], at + [i]; }
      i := i + 1;
    }
  }

  /** The inner loop: the ready steps leave, and nobody waits for them any more. */
  method Remove(steps: seq<Step>, remaining: map<nat, set<nat>>, ready: seq<nat>) returns (rest: map<nat, set<nat>>)
    requires Pruned(steps, remaining) && remaining.Keys <= Ids(steps)
    ensures rest.Keys == remaining.Keys - (set x | x in ready) && Pruned(steps, rest)
  {
    rest := remaining;
    var i := 0;
    while i < |ready|
      invariant i <= |ready| && rest.Keys == remaining.Keys - (set x | x in ready[..i]) && Pruned(steps, rest)
    {
      var sid := ready[i];
      assert ready[..i + 1] == ready[..i] + [sid];
      ghost var was := rest;
      rest := map x | x in rest && x != sid :: rest[x] - {sid};
      assert rest.Keys == was.Keys - {sid};
      i := i + 1;
    }
    assert ready[..i] == ready;
  }

  lemma NextRound(steps: seq<Step>, remaining: map<nat, set<nat>>, rest: map<nat, set<nat>>, ready: seq<nat>, k: nat)
    requires Normalized(steps) && Round(steps, remaining, k) && Pruned(steps, rest)
    requires rest.Keys == remaining.Keys - (set x | x in ready)
    requires forall x :: x in ready <==> x in Ids(steps) && x in remaining && remaining[x] == {}
    ensures Round(steps, rest, k + 1)
  {
    forall i | 0 <= i < |steps| ensures steps[i].id in rest <==> Chain(Graph(steps), steps[i].id, k + 1) {
      assert steps[i].id in Ids(steps);
      if steps[i].id in remaining { ReadyHasDepth(steps, remaining, k, i); }
      else if Chain(Graph(steps), steps[i].id, k + 1) { ShorterChain(Graph(steps), steps[i].id, k); }
    }
  }

  /** Everything that was taken out so far: in order, and of depth below `k`. */
  ghost predicate Sorted(steps: seq<Step>, result: seq<nat>, k: nat) {
    && (forall x :: x in result ==> x in Ids(steps) && exists n: nat :: n < k && Depth(Graph(steps), x, n))
    && (forall i, j :: 0 <= i < j < |result| ==> result[i] != result[j] && Before(steps, result[i], result[j]))
  }

  lemma LayerDepth(steps: seq<Step>, remaining: map<nat, set<nat>>, ready: seq<nat>, at: seq<nat>, k: nat)
    requires Normalized(steps) && Round(steps, remaining, k)
    requires |at| == |ready| && forall j :: 0 <= j < |ready| ==> At(steps, ready[j], at[j])
    requires forall x :: x in ready ==> x in remaining && remaining[x] == {}
    ensures forall j :: 0 <= j < |ready| ==> Depth(Graph(steps), ready[j], k)
  {
    forall j | 0 <= j < |ready| ensures Depth(Graph(steps), ready[j], k) {
      assert ready[j] in ready && At(steps, ready[j], at[j]);
      ReadyHasDepth(steps, remaining, k, at[j]);
    }
  }

  lemma LayerSorted(steps: seq<Step>, result: seq<nat>, ready: seq<nat>, at: seq<nat>, k: nat)
    requires Normalized(steps) && Sorted(steps, result, k)
    requires |at| == |ready| && forall j :: 0 <= j < |ready| ==> At(steps, ready[j], at[j]) && Depth(Graph(steps), ready[j], k)
    requires forall i, j :: 0 <= i < j < |at| ==> at[i] < at[j]
    ensures Sorted(steps, result + ready, k + 1)
  {
    var g, all := Graph(steps), result + ready;
    forall x | x in all ensures x in Ids(steps) && exists n: nat :: n < k + 1 && Depth(g, x, n) {
      if x in ready { var j :| 0 <= j < |ready| && ready[j] == x; assert At(steps, x, at[j]); assert Depth(g, x, k); }
    }
    forall i, j | 0 <= i < j < |all| ensures all[i] != all[j] && Before(steps, all[i], all[j]) {
      if j < |result| { assert all[i] == result[i] && all[j] == result[j]; }
      else if i < |result| {
        assert all[i] in result && Depth(g, all[j], k) by { assert all[j] == ready[j - |result|]; }
        Shallower(steps, all[i], all[j], k);
      } else {
        assert all[i] == ready[i - |result|] && all[j] == ready[j - |result|];
        SameLayer(steps, all[i], all[j], at[i - |result|], at[j - |result|], k);
      }
    }
  }

  lemma Shallower(steps: seq<Step>, x: nat, y: nat, k: nat)
    requires Depth(Graph(steps), y, k) && exists n: nat :: n < k && Depth(Graph(steps), x, n)
    ensures x != y && Before(steps, x, y)
  {
    var g := Graph(steps);
    var n: nat :| n < k && Depth(g, x, n);
    forall m: nat | Depth(g, x, m) ensures m == n { DepthUnique(g, x, m, n); }
    forall m: nat | Depth(g, y, m) ensures m == k { DepthUnique(g, y, m, k); }
  }

  lemma SameLayer(steps: seq<Step>, x: nat, y: nat, i: nat, j: nat, k: nat)
    requires Normalized(steps) && At(steps, x, i) && At(steps, y, j) && i < j
    requires Depth(Graph(steps), x, k) && Depth(Graph(steps), y, k)
    ensures x != y && Before(steps, x, y)
  {
    var g := Graph(steps);
    forall m: nat | Depth(g, x, m) ensures m == k { DepthUnique(g, x, m, k); }
    forall m: nat | Depth(g, y, m) ensures m == k { DepthUnique(g, y, m, k); }
  }

  /** `_order` fails exactly when the dependency graph has a cycle; otherwise it answers every step id once, sorted by
      (length of the longest dependency chain, position in the specification). */
  method Order(steps: seq<Step>) returns (r: Plan)
    requires Normalized(steps)
    ensures r.CycleError? <==> Cyclic(Graph(steps))
    ensures r.Ordered? ==>
              && (forall x :: x in r.ids <==> x in Ids(steps))
              && (forall i, j :: 0 <= i < j < |r.ids| ==> r.ids[i] != r.ids[j] && Before(steps, r.ids[i], r.ids[j]))
              && (forall x :: x in r.ids ==> exists n: nat :: Depth(Graph(steps), x, n))
  {
    var remaining := Start(steps);
    var result := [];
    ghost var k := 0;
    StartIsRound(steps);
    while remaining.Keys != {}
      invariant Round(steps, remaining, k) && Sorted(steps, result, k)
      invariant forall x :: x in Ids(steps) <==> x in remaining || x in result
      decreases remaining.Keys
    {
      ghost var at;
      var ready;
      ready, at := Ready(steps, remaining);
      if ready == [] {
        NoneReady(steps, remaining, k);
        return CycleError;
      }
      LayerDepth(steps, remaining, ready, at, k);
      LayerSorted(steps, result, ready, at, k);
      ghost var was := remaining;
      remaining := Remove(steps, remaining, ready);
      NextRound(steps, was, remaining, ready, k);
      assert ready[0] in ready && ready[0] in was;
      result := result + ready;
      k := k + 1;
    }
    r := Ordered(result);
    AllOutIsAcyclic(steps, remaining, k);
  }

  lemma NoneReady(steps: seq<Step>, remaining: map<nat, set<nat>>, k: nat)
    requires Normalized(steps) && Round(steps, remaining, k) && remaining.Keys != {}
    requires forall x :: x in Ids(steps) && x in remaining ==> remaining[x] != {}
    ensures Cyclic(Graph(steps))
  {
    var g := Graph(steps);
    forall x | x in remaining.Keys ensures HasNext(g, remaining.Keys, x) {
      var i :| 0 <= i < |steps| && steps[i].id == x;
      var y :| y in remaining[x];
      EdgeOfStep(steps, i, y);
    }
    StuckIsCyclic(g, remaining.Keys);
  }

  lemma AllOutIsAcyclic(steps: seq<Step>, remaining: map<nat, set<nat>>, k: nat)
    requires Normalized(steps) && Round(steps, remaining, k) && remaining.Keys == {}
    ensures !Cyclic(Graph(steps))
  {
    var g := Graph(steps);
    forall x: nat ensures !Reaches(g, x, x) {
      if Reaches(g, x, x) {
        CycleChains(g, x, x, k);
        StepOfWalk(steps, x, x);
      }
    }
  }

  lemma StepOfWalk(steps: seq<Step>, x: nat, y: nat)
    requires Reaches(Graph(steps), x, y)
    ensures x in Ids(steps)
  {
    var m := FirstEdge(Graph(steps), x, y);
    var i, z :| 0 <= i < |steps| && z in steps[i].deps && (steps[i].id, z) == (x, m);
  }
}
