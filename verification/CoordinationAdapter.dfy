/** The coordination adapter (a01_supervisor_coordination_strict.py): dependency graph and capacity beside the store. */
module CoordinationAdapter {
  import opened Wrappers
  import opened Tables
  import opened Queries
  import opened DependencyGraph
  import opened GraphSearch
  import opened SupervisorSpec
  import opened SupervisorInvariants
  import opened SupervisorSafety
  import opened StoreSteps
  import opened SupervisorStore
  import opened CoordinationSpec
  import opened CoordinationSafety
  import opened SupervisorEffects
  import opened CoordinationEffects

  /** The outcome of a transaction on the tables `a` and the plan `p` that should end in `spec`. */
  ghost predicate BothEnd(r: Res<()>, spec: Res<(Core, Coord)>, a: Core, p: Coord, b: Core, q: Coord) {
    if spec.Ok? then r == Ok(()) && b == spec.value.0 && q == spec.value.1
    else r == Err(spec.error) && b == a && q == p
  }

  class CoordinationAdapter {
    const store: SupervisorStore
    var tasks: map<DelegationId, TaskRow>
    var deps: Edges
    var limits: map<nat, int>

    function Plan(): Coord reads this { Coord(tasks, deps, limits) }

    ghost predicate Valid() reads this, store { store.Valid() && Planned(store.Tables(), Plan()) }

    constructor (s: SupervisorStore)
      requires s.Valid()
      ensures store == s && Plan() == Coord(map[], {}, map[]) && Valid()
    {
      store := s;
      tasks, deps, limits := map[], {}, map[];
      new;
      forall x: nat ensures !Reaches({}, x, x) { ReachesFromNode({}, x, x); }
    }

    method Rollback(saved: Core, plan: Coord)
      modifies this, store
      ensures store.Tables() == saved && Plan() == plan
    {
      store.Restore(saved);
      tasks, deps, limits := plan.tasks, plan.deps, plan.limits;
    }

    // ---- Queries ----

    /** `_graph_mismatch_locked` */
    method FindMismatch() returns (e: Option<(DelegationId, DelegationId)>)
      ensures e.Some? <==> Mismatched(Plan())
      ensures e.Some? ==> e.value in deps && MismatchedEdge(Plan(), e.value)
    {
      var bad := set x | x in deps && MismatchedEdge(Plan(), x);
      if bad == {} {
        e := None;
        forall x | x in Plan().deps ensures !MismatchedEdge(Plan(), x) { assert x !in bad; }
      } else {
        var x :| x in bad;
        e := Some(x);
      }
    }

    /** `_resource_occupancy_locked` */
    method Occupancy(resource: nat) returns (n: nat)
      ensures n == |Occupants(store.Tables(), Plan(), resource)|
    { n := |Occupants(store.Tables(), Plan(), resource)|; }

    /** The live claim of a delegation. */
    method LiveClaim(d: DelegationId) returns (l: Option<LeaseId>)
      requires store.Valid()
      ensures l.Some? <==> HasLive(store.Tables(), d)
      ensures l.Some? ==> l.value == LiveOf(store.Tables(), d)
    {
      var found := set x | x in store.claims && store.claims[x].delegation == d && Live(store.claims[x]);
      if found == {} {
        l := None;
        forall x | x in store.Tables().claims && store.claims[x].delegation == d ensures !Live(store.claims[x]) {
          assert x !in found;
        }
      } else {
        var x :| x in found;
        l := Some(x);
      }
    }

    /** The loop over the dependency rows of a task. */
    method DependenciesDone(d: DelegationId) returns (ok: bool)
      requires d in tasks
      ensures ok == DependenciesMet(store.Tables(), Plan(), d)
    {
      var rows := Select(DepsOf(deps, d));
      ok := true;
      var i := 0;
      while i < |rows|
        invariant i <= |rows|
        invariant ok == forall y :: y in rows[..i] ==> DependencyMet(store.Tables(), Plan(), tasks[d], y)
      {
        assert rows[..i + 1] == rows[..i] + [rows[i]];
        if !DependencyMet(store.Tables(), Plan(), tasks[d], rows[i]) { ok := false; }
        i := i + 1;
      }
      assert rows[..i] == rows;
      forall y: nat ensures (d, y) in deps <==> y in rows { RowOfEdge(d, y); }
    }

    lemma RowOfEdge(d: DelegationId, y: DelegationId)
      ensures (d, y) in deps <==> y in DepsOf(deps, d)
    {
      if (d, y) in deps { assert (d, y).0 == d && (d, y).1 in DepsOf(deps, d); }
      if y in DepsOf(deps, d) {
        var e :| e in deps && e.0 == d && e.1 == y;
        assert e == (d, y);
      }
    }

    // ---- bind ----

    method InsertDelegation(h: Handoff) returns (r: Res<()>)
      requires store.Valid() && h.lane in store.lanes
      modifies store
      ensures Ends(r, BoundDelegation(old(store.Tables()), h), old(store.Tables()), store.Tables())
    {
      var active := store.ActiveClaim(h.lane);
      var waits := store.AnyInEvaluation(h.lane);
      if active.Some? || waits { return Err(Conflict); }
      if h.delegation in store.delegations {
        var e := store.delegations[h.delegation];
        r := if e.lane == h.lane && e.objective == h.objective && e.head == h.head && e.state == Ready
             then Ok(()) else Err(Conflict);
        return;
      }
      store.delegations := store.delegations[h.delegation := DelegationRow(h.lane, h.objective, h.head, Ready, h.evaluated)];
      store.lanes := LaneTo(store.lanes, h.lane, 0, HasReady, Some(h.delegation));
      r := Ok(());
    }

    /** The task and dependency rows; the answer says whether they may stay. */
    method InsertTask(h: Handoff, contract: Contract) returns (ok: bool)
      modifies this
      ensures var spec := BoundTask(old(Plan()), h, contract);
              ok == spec.Ok? && (ok ==> Plan() == spec.value)
    {
      if h.delegation in tasks {
        ok := SameTask(Plan(), h, contract);
        return;
      }
      tasks := tasks[h.delegation := TaskOf(h, contract)];
      deps := deps + EdgesFrom(h.delegation, contract.deps);
      var cycle := FindCycle(deps);
      if cycle != [] { return false; }
      var mismatch := FindMismatch();
      ok := mismatch.None?;
    }

    /** The statements of the binding; an error leaves the rollback to the caller. */
    method BindRows(h: Handoff, contract: Contract, now: int) returns (r: Res<()>, ghost waiting: seq<LeaseId>)
      requires Valid()
      modifies this, store
      ensures var spec := CoordinationSpec.Bind(old(store.Tables()), old(Plan()), h, contract, now, waiting);
              if spec.Ok? then r == Ok(()) && store.Tables() == spec.value.0 && Plan() == spec.value.1 else r == Err(spec.error)
      ensures ValidContract(h, contract) && (contract.resource in old(limits) ==> old(limits)[contract.resource] == contract.limit) ==>
                (SupervisorSpec.RegisterLane(old(store.Tables()), h.lane, h.ownerPath, h.controlRef, h.head, now, waiting).Ok?
                 <==> AcceptsLane(old(store.Tables()), h.lane, h.ownerPath, h.controlRef))
    {
      var plan := Plan();
      waiting := [];
      if !ValidContract(h, contract) { return Err(Conflict), []; }
      if contract.resource in limits {
        if limits[contract.resource] != contract.limit { return Err(Conflict), []; }
      } else {
        limits := limits[contract.resource := contract.limit];
      }
      r, waiting := store.RegisterLane(h.lane, h.ownerPath, h.controlRef, h.head, now);
      if r.Err? { return; }
      r := InsertDelegation(h);
      if r.Err? { return; }
      var fits := InsertTask(h, contract);
      if !fits { return Err(Conflict), waiting; }
      if h.delegation !in plan.tasks { store.events := store.events + [BoundEvent(h, now)]; }
    }

    method Bind(h: Handoff, contract: Contract, now: int) returns (r: Res<()>, ghost waiting: seq<LeaseId>)
      requires Valid()
      modifies this, store
      ensures Valid()
      ensures PlanKept(old(store.Tables()), old(Plan()), store.Tables(), Plan())
      ensures BothEnd(r, CoordinationSpec.Bind(old(store.Tables()), old(Plan()), h, contract, now, waiting),
                      old(store.Tables()), old(Plan()), store.Tables(), Plan())
      ensures r.Ok? <==> AcceptsBinding(old(store.Tables()), old(Plan()), h, contract)
      ensures r.Ok? ==> HandoffBound(old(store.Tables()), old(Plan()), store.Tables(), Plan(), h, contract, now)
    {
      var saved, plan := store.Tables(), Plan();
      r, waiting := BindRows(h, contract, now);
      BindingAccepted(saved, plan, h, contract, now, waiting);
      if r.Err? { Rollback(saved, plan); return; }
      BindWritesRows(saved, plan, h, contract, now, waiting);
      BindKeeps(saved, plan, h, contract, now, waiting);
      store.StillValid(saved);
    }

    // ---- claim ----

    /** The checks on the durable task. */
    method MayClaim(h: Handoff) returns (ok: bool)
      ensures ok == Eligible(store.Tables(), Plan(), h)
    {
      if h.delegation !in tasks { return false; }
      var t := tasks[h.delegation];
      if t.handoffDigest != h.digest || t.cancelled { return false; }
      var done := DependenciesDone(h.delegation);
      if !done || t.resource !in limits || limits[t.resource] != t.limit { return false; }
      var n := Occupancy(t.resource);
      ok := n < t.limit;
    }

    method MayGrant(q: Request) returns (ok: bool)
      requires store.Valid()
      ensures ok == Grantable(store.Tables(), q)
    {
      if q.lane !in store.lanes || store.lanes[q.lane].head != q.head { return false; }
      var active := store.ActiveClaim(q.lane);
      if active.Some? || q.delegation !in store.delegations { return false; }
      var d := store.delegations[q.delegation];
      ok := d.lane == q.lane && d.objective == q.objective && d.head == q.head && d.state == Ready;
    }

    method Claim(
      h: Handoff, contract: Contract, shiftOpen: bool, queued: set<DelegationId>, now: int, ttl: int,
      lease: LeaseId, dispatch: DispatchId) returns (r: Res<LeaseId>)
      requires Valid()
      modifies store
      ensures Valid()
      ensures PlanKept(old(store.Tables()), Plan(), store.Tables(), Plan())
      ensures var spec := CoordClaim(old(store.Tables()), Plan(), h, contract, shiftOpen, queued, now, ttl, lease, dispatch);
              if spec.Ok? then
                r.Ok? && store.Tables() == spec.value && r.value in store.claims && Live(store.claims[r.value])
                && store.claims[r.value].key == h.key && store.claims[r.value].delegation == h.delegation
              else r == Err(spec.error) && store.Tables() == old(store.Tables())
      ensures r.Ok? <==> AcceptsStart(old(store.Tables()), Plan(), h, contract, shiftOpen, queued, now, ttl, lease, dispatch)
      ensures r.Ok? ==> if KeyUsed(old(store.Tables()), h.key) then store.Tables() == old(store.Tables())
                        else r.value == lease && HandoffGranted(old(store.Tables()), store.Tables(), h, now, ttl, lease, dispatch)
    {
      ghost var before := store.Tables();
      StartAccepted(before, Plan(), h, contract, shiftOpen, queued, now, ttl, lease, dispatch);
      var q := RequestOf(h, now, ttl, lease, dispatch);
      if !ValidContract(h, contract) || !WindowOpen(h, now, shiftOpen) { return Err(Conflict); }
      if ttl < 30 || ttl > 3600 { return Err(BadValue); }
      var prior := store.FindKey(h.key);
      if prior.Some? {
        var c := store.claims[prior.value];
        r := if SameClaim(c, q) && Live(c) then Ok(prior.value) else Err(Conflict);
        return;
      }
      var eligible := MayClaim(h);
      var grantable := MayGrant(q);
      if !eligible || !grantable { return Err(Conflict); }
      if lease in store.claims || dispatch in store.outbox || h.delegation in queued { return Err(Conflict); }
      CoordClaimKeeps(before, Plan(), h, contract, shiftOpen, queued, now, ttl, lease, dispatch);
      store.InsertClaim(q);
      ClaimWrites(before, h, now, ttl, lease, dispatch);
      GrantedKeysDiffer(before, q);
      r := Ok(lease);
    }

    // ---- request_cancel, acknowledge_cancel ----

    method CancelOne(d: DelegationId, now: int)
      requires Valid()
      modifies this, store
      ensures Valid()
      ensures PlanKept(old(store.Tables()), old(Plan()), store.Tables(), Plan())
      ensures CoordinationSpec.CancelOne(old(store.Tables()), old(Plan()), d, now) == Ok((store.Tables(), Plan()))
      ensures forall x :: x in old(store.delegations) ==>
                WorkAfter(old(store.Tables()), old(Plan()), store.Tables(), Plan(), x, x == d, now)
    {
      forall x | x in store.Tables().delegations
        ensures var one := CoordinationSpec.CancelOne(store.Tables(), Plan(), d, now);
                one.Ok? && WorkAfter(store.Tables(), Plan(), one.value.0, one.value.1, x, x == d, now)
      { CancelOneRows(store.Tables(), Plan(), d, now, x); }
      CancelOneKeeps(store.Tables(), Plan(), d, now);
      if d in tasks && !CancelSettled(store.Tables(), Plan(), d) {
        ghost var before := store.Tables();
        CancelRows(d, now);
        tasks := tasks[d := tasks[d].(cancelled := true)];
        store.StillValid(before);
      }
    }

    /** The supervisor rows of a cancelled delegation. */
    method CancelRows(d: DelegationId, now: int)
      requires store.Valid() && d in store.delegations
      modifies store
      ensures store.Tables() ==
                if HasLive(old(store.Tables()), d)
                then var l := LiveOf(old(store.Tables()), d);
                     Release(old(store.Tables()), l, Cancelled, CancelOut(old(store.Tables()), l), 1, CancelLogged, OtherDoc(3), now)
                else CancelIdle(old(store.Tables()), d, now)
    {
      var live := LiveClaim(d);
      if live.Some? {
        var l := live.value;
        store.ReleaseRows(l, Cancelled, CancelOut(store.Tables(), l), 1, CancelLogged, OtherDoc(3), now);
      } else {
        CancelWaiting(d, now);
      }
    }

    method CancelWaiting(d: DelegationId, now: int)
      requires d in store.delegations
      modifies store
      ensures store.Tables() == CancelIdle(old(store.Tables()), d, now)
    {
      var lane := store.delegations[d].lane;
      if lane in store.lanes && store.lanes[lane].current == Some(d) {
        store.lanes := LaneTo(store.lanes, lane, 0, Reconcile, None);
      }
      store.events := store.events + [Event(now, lane, CancelLogged, Some(d), None, None, 0, NoDoc)];
      store.delegations := DelegationTo(store.delegations, d, Cancelled);
    }

    /** Answers the delegations that were looked at, the root first. */
    method RequestCancel(d: DelegationId, cascade: Option<bool>, now: int) returns (r: Res<seq<DelegationId>>)
      requires Valid()
      modifies this, store
      ensures Valid()
      ensures PlanKept(old(store.Tables()), old(Plan()), store.Tables(), Plan())
      ensures r.Err? ==> store.Tables() == old(store.Tables()) && Plan() == old(Plan())
      ensures r.Err? <==> d !in old(tasks) || (cascade.Some? && cascade.value != old(tasks)[d].cascade)
      ensures r.Ok? ==>
                && r.value != [] && r.value[0] == d
                && CoordinationSpec.RequestCancel(old(store.Tables()), old(Plan()), d, cascade, r.value[1..], now)
                   == Ok((store.Tables(), Plan()))
      ensures r.Ok? ==> CancelEnds(old(store.Tables()), old(Plan()), store.Tables(), Plan(), d, now)
    {
      ghost var before, plan := store.Tables(), Plan();
      if d !in tasks { return Err(Conflict); }
      if cascade.Some? && cascade.value != tasks[d].cascade { return Err(Conflict); }
      var found := [];
      if tasks[d].cascade { found := Descendants(GraphEdges(Plan(), tasks[d].graph, tasks[d].version), d); }
      var targets := [d] + found;
      assert targets[1..] == found;
      CancelTargetRows(targets, now);
      r := Ok(targets);
      CancelWrites(before, plan, d, cascade, found, now);
    }

    method CancelTargetRows(targets: seq<DelegationId>, now: int)
      requires Valid()
      modifies this, store
      ensures Valid()
      ensures PlanKept(old(store.Tables()), old(Plan()), store.Tables(), Plan())
      ensures CancelAll(old(store.Tables()), old(Plan()), targets, now) == Ok((store.Tables(), Plan()))
    {
      var i := 0;
      while i < |targets|
        invariant i <= |targets| && Valid() && PlanKept(old(store.Tables()), old(Plan()), store.Tables(), Plan())
        invariant CancelAll(store.Tables(), Plan(), targets[i..], now) == CancelAll(old(store.Tables()), old(Plan()), targets, now)
      {
        assert targets[i..][1..] == targets[i + 1..];
        CancelOne(targets[i], now);
        i := i + 1;
      }
    }

    method AcknowledgeCancel(d: DispatchId, run: RunId, now: int) returns (r: Res<()>)
      requires Valid()
      modifies store
      ensures Valid()
      ensures PlanKept(old(store.Tables()), Plan(), store.Tables(), Plan())
      ensures Ends(r, CoordinationSpec.AcknowledgeCancel(old(store.Tables()), d, run, now), old(store.Tables()), store.Tables())
      ensures r.Ok? <==> d in old(store.outbox) && AcceptsStop(old(store.outbox)[d], run)
      ensures r.Ok? ==> StopAcknowledged(old(store.Tables()), store.Tables(), d)
    {
      ghost var before := store.Tables();
      if d !in store.outbox { return Err(Conflict); }
      var o := store.outbox[d];
      if o.state == OutCancelled {
        r := if o.run.Some? && o.run.value != run then Err(Conflict) else Ok(());
        return;
      }
      if o.state != CancelRequested || o.run != Some(run) { return Err(Conflict); }
      store.outbox := OutboxTo(store.outbox, d, OutCancelled);
      store.events := store.events + [Event(now, o.lane, CancelAcknowledged, None, Some(o.lease), Some(d), 0, NoDoc)];
      r := Ok(());
      AcknowledgeWrites(before, d, run, now);
      AcknowledgeCancelSound(before, d, run, now);
      QuietKeeps(before, store.Tables(), Plan());
      store.StillValid(before);
    }
  }
}
