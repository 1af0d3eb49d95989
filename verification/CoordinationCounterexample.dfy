/** A run in which the raw `claim_ready` ignores the plan: it leases work whose dependency is still running, on a resource
    that the dependency already fills. */
module CoordinationCounterexample {
  import opened Wrappers
  import opened Tables
  import opened DependencyGraph
  import opened SupervisorSpec
  import opened SupervisorInvariants
  import opened CoordinationSpec
  import opened CoordinationSafety
  import opened NightSpec
  import opened ExecutionSpec
  import opened SecondShift
  import opened SecondShiftRuns
  import opened CoordinationRuns

  /** Work for the lane with the same number as the delegation. */
  function Work(d: DelegationId): Handoff { Handoff(d, 0, 0, 7, d, 0, d, 0, 0, None, None, false, 0, 0, false, d) }

  /** Both tasks need the one slot of the same resource. */
  function Plan(d: DelegationId, deps: set<DelegationId>): Contract { Contract(d, 0, 1, d, deps, 0, 1, true) }

  function RawClaim(): Request { Request(2, 2, 0, 7, 2, 0, 0, 3600, 20, 2, 2) }

  ghost predicate LeadsTo(ms: seq<Move>, w: World) { w == After(Start(), ms) && w == Start().(core := w.core, coord := w.coord) }

  lemma OneEdge()
    ensures !Cyclic({}) && !Cyclic({(2, 1)})
  {
    forall x ensures !Reaches({}, x, x) && !Reaches({(2, 1)}, x, x) {
      if Reaches({}, x, x) { var m := FirstEdge({}, x, x); }
      if Reaches({(2, 1)}, x, x) {
        var m := FirstEdge({(2, 1)}, x, x);
        if m != x { var n := FirstEdge({(2, 1)}, m, x); }
      }
    }
  }

  /** The tables after the first binding. */
  predicate FirstBound(c: Core, k: Coord) {
    && c.lanes == map[1 := LaneRow(0, 0, 7, 0, HasReady, Some(1))]
    && c.delegations == map[1 := DelegationRow(1, 0, 7, Ready, false)] && c.claims == map[] && c.outbox == map[]
    && k == Coord(map[1 := TaskRow(1, 0, 1, 0, 1, true, false)], {}, map[0 := 1])
  }

  lemma BindFirst() returns (ms: seq<Move>, w: World)
    ensures LeadsTo(ms, w) && FirstBound(w.core, w.coord)
  {
    var m := Move(OfPlan(BindOp(Work(1), Plan(1, {}), [])), 0);
    ms := [] + [m];
    AfterOne(Start(), [], m);
    w := Next(Start(), m);
    OneEdge();
    var k := WithLimit(Start().coord, 0, 1);
    assert WithTask(k, 1, TaskOf(Work(1), Plan(1, {})), {}).deps == {};
  }

  predicate BothBound(c: Core, k: Coord) {
    && c.lanes == map[1 := LaneRow(0, 0, 7, 0, HasReady, Some(1)), 2 := LaneRow(0, 0, 7, 0, HasReady, Some(2))]
    && c.delegations == map[1 := DelegationRow(1, 0, 7, Ready, false), 2 := DelegationRow(2, 0, 7, Ready, false)]
    && c.claims == map[] && c.outbox == map[]
    && k == Coord(map[1 := TaskRow(1, 0, 1, 0, 1, true, false), 2 := TaskRow(2, 0, 1, 0, 1, true, false)], {(2, 1)}, map[0 := 1])
  }

  lemma BindsSecond(c: Core, k: Coord)
    requires FirstBound(c, k)
    ensures CoordinationSpec.Bind(c, k, Work(2), Plan(2, {1}), 1, []).Ok?
    ensures var r := CoordinationSpec.Bind(c, k, Work(2), Plan(2, {1}), 1, []).value; BothBound(r.0, r.1)
  {
    OneEdge();
    var k' := WithTask(k, 2, TaskOf(Work(2), Plan(2, {1})), {1});
    assert k'.deps == {(2, 1)} by { assert EdgesFrom(2, {1}) == {(2, 1)}; }
  }

  lemma BindSecond() returns (ms: seq<Move>, w: World)
    ensures LeadsTo(ms, w) && BothBound(w.core, w.coord)
  {
    ms, w := BindFirst();
    BindsSecond(w.core, w.coord);
    var m := Move(OfPlan(BindOp(Work(2), Plan(2, {1}), [])), 1);
    AfterOne(Start(), ms, m);
    ms, w := ms + [m], Next(w, m);
  }

  /** The first delegation runs and fills the resource; the second is READY. */
  ghost predicate FirstRuns(c: Core, k: Coord) {
    && c.claims.Keys == {1} && c.claims[1].key == 1 && c.claims[1].delegation == 1 && Live(c.claims[1]) && c.claims[1].lane == 1
    && c.outbox.Keys == {1} && Occupants(c, k, 0) == {1}
    && 2 in c.lanes && c.lanes[2].head == 7
    && c.delegations == map[1 := DelegationRow(1, 0, 7, Claimed, false), 2 := DelegationRow(2, 0, 7, Ready, false)]
    && k == Coord(map[1 := TaskRow(1, 0, 1, 0, 1, true, false), 2 := TaskRow(2, 0, 1, 0, 1, true, false)], {(2, 1)}, map[0 := 1])
  }

  lemma ClaimFirst(c: Core, k: Coord)
    requires BothBound(c, k)
    ensures CoordClaim(c, k, Work(1), Plan(1, {}), true, {}, 10, 3600, 1, 1) == Ok(Grant(c, RequestOf(Work(1), 10, 3600, 1, 1)))
    ensures FirstRuns(Grant(c, RequestOf(Work(1), 10, 3600, 1, 1)), k)
  {
    assert Occupants(c, k, 0) == {};
    assert Occupants(Grant(c, RequestOf(Work(1), 10, 3600, 1, 1)), k, 0) == {1};
  }

  lemma RunFirst() returns (ms: seq<Move>, w: World)
    ensures LeadsTo(ms, w) && FirstRuns(w.core, w.coord)
  {
    ms, w := BindSecond();
    ClaimFirst(w.core, w.coord);
    var m := Move(OfClaim(CoordClaimOp(Work(1), Plan(1, {}), true, 3600, 1, 1)), 10);
    AfterOne(Start(), ms, m);
    ms, w := ms + [m], Next(w, m);
  }

  lemma IgnoresPlan(w: World, m: Move)
    requires FirstRuns(w.core, w.coord) && w.night.queue == map[] && m == Move(OfClaim(ClaimReadyOp(RawClaim(), true)), 20)
    ensures Step(w, m.op, m.now) == Ok(w.(core := Grant(w.core, RawClaim())))
    ensures SkipsDependencies(w, m.op, m.now) && Overfills(w, m.op, m.now)
  {
    var q := RawClaim();
    assert q.(now := 20) == q;
    assert Grantable(w.core, q) && Fresh(w.core, q) && !KeyUsed(w.core, 2);
    assert Step(w, m.op, 20) == Ok(w.(core := Grant(w.core, q)));
    assert 2 in Grant(w.core, q).claims && 2 !in w.core.claims;
    assert (2, 1) in w.coord.deps && (2, 1).0 == 2;
  }

  lemma FirstKeepsPlan(c: Core, k: Coord)
    requires FirstRuns(c, k)
    ensures Closed(c, k) && WithinLimits(c, k)
  { }

  lemma Breaks(w: World, m: Move)
    requires WorldOk(w) && FirstRuns(w.core, w.coord) && w.night.queue == map[]
    requires m == Move(OfClaim(ClaimReadyOp(RawClaim(), true)), 20)
    ensures Closed(w.core, w.coord) && WithinLimits(w.core, w.coord) && Step(w, m.op, m.now).Ok?
    ensures !Closed(Next(w, m).core, w.coord) && !WithinLimits(Next(w, m).core, w.coord)
  {
    FirstKeepsPlan(w.core, w.coord);
    IgnoresPlan(w, m);
    StepPlan(w, m.op, m.now);
  }

  /** Without the rule that coordinated work is claimed through the plan, closure and capacity are no invariants. */
  lemma PlanCanBreak() returns (w: World, m: Move)
    ensures Reachable(w) && Closed(w.core, w.coord) && WithinLimits(w.core, w.coord) && Step(w, m.op, m.now).Ok?
    ensures !Closed(Next(w, m).core, w.coord) && !WithinLimits(Next(w, m).core, w.coord)
  {
    var ms;
    ms, w := RunFirst();
    m := Move(OfClaim(ClaimReadyOp(RawClaim(), true)), 20);
    RunIsTrace(Start(), ms);
    ReachableOk(w);
    Breaks(w, m);
  }
}
