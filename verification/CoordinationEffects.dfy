/** What the transactions of the coordination adapter do, row by row: what a binding stores, what a claim grants, and what a
    cancellation ends and what it leaves alone. */
module CoordinationEffects {
  import opened Wrappers
  import opened Tables
  import opened DependencyGraph
  import opened SupervisorSpec
  import opened SupervisorInvariants
  import opened SupervisorSafety
  import opened StoreSteps
  import opened SupervisorEffects
  import opened CoordinationSpec
  import opened CoordinationSafety

  // ---- bind ----

  /** The task row holds the contract. */
  predicate HoldsContract(t: TaskRow, h: Handoff, contract: Contract) {
    && t.handoffDigest == h.digest && t.graph == contract.graph && t.version == contract.version
    && t.resource == contract.resource && t.limit == contract.limit && t.cascade == contract.cascade
  }

  /** The task is stored with exactly the dependencies of its contract, its resource has the limit of the contract, and
      nothing else changes. A task that was stored before is the same. */
  ghost predicate TaskStored(k: Coord, k': Coord, h: Handoff, contract: Contract) {
    var d := h.delegation;
    && d in k'.tasks && HoldsContract(k'.tasks[d], h, contract)
    && (d in k.tasks ==> k'.tasks[d] == k.tasks[d]) && (d !in k.tasks ==> !k'.tasks[d].cancelled)
    && k'.tasks.Keys == k.tasks.Keys + {d} && (forall x :: x in k.tasks && x != d ==> k'.tasks[x] == k.tasks[x])
    && (forall y :: (d, y) in k'.deps <==> y in contract.deps)
    && (forall x, y :: x != d ==> ((x, y) in k'.deps <==> (x, y) in k.deps))
    && k'.limits.Keys == k.limits.Keys + {contract.resource} && k'.limits[contract.resource] == contract.limit
    && (forall x :: x in k.limits && x != contract.resource ==> k'.limits[x] == k.limits[x])
  }

  lemma TaskWrites(k: Coord, h: Handoff, contract: Contract)
    requires contract.resource in k.limits ==> k.limits[contract.resource] == contract.limit
    requires BoundTask(WithLimit(k, contract.resource, contract.limit), h, contract).Ok?
    requires h.delegation !in k.tasks ==> forall y :: (h.delegation, y) !in k.deps
    ensures TaskStored(k, BoundTask(WithLimit(k, contract.resource, contract.limit), h, contract).value, h, contract)
  {
    var k' := BoundTask(WithLimit(k, contract.resource, contract.limit), h, contract).value;
    var d := h.delegation;
    forall y ensures (d, y) in k'.deps <==> y in contract.deps {
      if d in k.tasks {
        if (d, y) in k.deps { assert (d, y).0 == d && (d, y).1 in DepsOf(k.deps, d); }
        if y in DepsOf(k.deps, d) {
          var e :| e in k.deps && e.0 == d && e.1 == y;
          assert e == (d, y);
        }
      } else if (d, y) in EdgesFrom(d, contract.deps) { assert (d, y).1 in contract.deps; }
    }
  }

  /** The lane is registered at the head of the handoff, the work is bound on it, and the task is stored. */
  ghost predicate HandoffBound(a: Core, k: Coord, b: Core, k': Coord, h: Handoff, contract: Contract, now: int) {
    && TaskStored(k, k', h, contract)
    && exists mid: Core ::
         && LaneRegisters(a, mid, h.lane, h.ownerPath, h.controlRef, h.head, now)
         && WorkBound(mid, b.(events := mid.events), h.lane, h.delegation, h.objective, h.head, h.evaluated)
  }

  lemma DelegationWrites(c: Core, h: Handoff)
    requires h.lane in c.lanes && BoundDelegation(c, h).Ok?
    ensures var b := BoundDelegation(c, h).value;
            b.events == c.events && WorkBound(c, b, h.lane, h.delegation, h.objective, h.head, h.evaluated)
  {
    var b := BoundDelegation(c, h).value;
    if h.delegation !in c.delegations { assert WorkAdded(c, b, h.lane, h.delegation, b.delegations[h.delegation]); }
  }

  lemma EdgeBound(c: Core, k: Coord, e: (DelegationId, DelegationId))
    requires Planned(c, k) && e in k.deps
    ensures e.0 in k.tasks
  { assert Bound(k, e); }

  lemma NoEdgesYet(c: Core, k: Coord, d: DelegationId)
    requires Planned(c, k) && d !in k.tasks
    ensures forall y :: (d, y) !in k.deps
  { forall y ensures (d, y) !in k.deps { if (d, y) in k.deps { EdgeBound(c, k, (d, y)); } } }

  lemma BindWritesRows(c: Core, k: Coord, h: Handoff, contract: Contract, now: int, waiting: seq<LeaseId>)
    requires Consistent(c) && Planned(c, k) && Bind(c, k, h, contract, now, waiting).Ok?
    ensures var r := Bind(c, k, h, contract, now, waiting).value; HandoffBound(c, k, r.0, r.1, h, contract, now)
  {
    var mid := RegisterLane(c, h.lane, h.ownerPath, h.controlRef, h.head, now, waiting).value;
    LaneWrites(c, h.lane, h.ownerPath, h.controlRef, h.head, now, waiting);
    RegisterLaneSound(c, h.lane, h.ownerPath, h.controlRef, h.head, now, waiting);
    DelegationWrites(mid, h);
    if h.delegation !in k.tasks { NoEdgesYet(c, k, h.delegation); }
    TaskWrites(k, h, contract);
    var r := Bind(c, k, h, contract, now, waiting).value;
    assert r.0.(events := mid.events) == BoundDelegation(mid, h).value;
  }

  /** What a contract has to say about the handoff that it comes with. */
  predicate Admissible(h: Handoff, contract: Contract) {
    && contract.handoffDigest == h.digest && contract.delegation == h.delegation && contract.version >= 1
    && h.delegation !in contract.deps && 1 <= contract.limit <= 64
  }

  /** The task may be stored: it is the same as before, or new, its dependencies close no cycle, and all tasks of one
      dependency row are of one graph and version. */
  ghost predicate TaskFits(k: Coord, h: Handoff, contract: Contract) {
    var d := h.delegation;
    if d in k.tasks then HoldsContract(k.tasks[d], h, contract) && forall y :: (d, y) in k.deps <==> y in contract.deps
    else
      && !Cyclic(k.deps + set y | y in contract.deps :: (d, y))
      && (forall y :: y in contract.deps && y in k.tasks ==> SameGraph(k.tasks[y], contract))
      && (forall x :: x in k.tasks && (x, d) in k.deps ==> SameGraph(k.tasks[x], contract))
  }

  predicate SameGraph(t: TaskRow, contract: Contract) { t.graph == contract.graph && t.version == contract.version }

  /** The work may be bound: the lane has nothing open at this head, or its head moves, and then the work is new. */
  ghost predicate WorkFits(c: Core, h: Handoff) {
    var same := h.lane in c.lanes && c.lanes[h.lane].head == h.head;
    && (same ==> LaneIdle(c, h.lane))
    && (h.delegation in c.delegations ==> same && SameWork(c, h.lane, h.delegation, h.objective, h.head))
  }

  ghost predicate AcceptsBinding(c: Core, k: Coord, h: Handoff, contract: Contract) {
    && Admissible(h, contract) && (contract.resource in k.limits ==> k.limits[contract.resource] == contract.limit)
    && AcceptsLane(c, h.lane, h.ownerPath, h.controlRef) && WorkFits(c, h) && TaskFits(k, h, contract)
  }

  lemma SameDeps(k: Coord, d: DelegationId, deps: set<DelegationId>)
    ensures DepsOf(k.deps, d) == deps <==> forall y :: (d, y) in k.deps <==> y in deps
  {
    forall y ensures (d, y) in k.deps <==> y in DepsOf(k.deps, d) {
      if (d, y) in k.deps { assert (d, y).0 == d; }
      if y in DepsOf(k.deps, d) {
        var e :| e in k.deps && e.0 == d && e.1 == y;
        assert e == (d, y);
      }
    }
  }

  lemma NewTaskFits(c: Core, k: Coord, h: Handoff, contract: Contract)
    requires Planned(c, k) && h.delegation !in k.tasks && h.delegation !in contract.deps
    ensures var k' := WithTask(k, h.delegation, TaskOf(h, contract), contract.deps);
            !(Cyclic(k'.deps) || Mismatched(k')) <==> TaskFits(k, h, contract)
  {
    var d := h.delegation;
    var k' := WithTask(k, d, TaskOf(h, contract), contract.deps);
    assert k'.deps == k.deps + set y | y in contract.deps :: (d, y);
    if Mismatched(k') {
      var e :| e in k'.deps && MismatchedEdge(k', e);
      if e in k.deps { OldEdgesMatch(c, k, e); } else { assert e.0 == d && e.1 in contract.deps; }
    }
    if !Mismatched(k') {
      forall y | y in contract.deps && y in k.tasks ensures SameGraph(k.tasks[y], contract) {
        assert (d, y) in k'.deps && !MismatchedEdge(k', (d, y));
      }
      forall x | x in k.tasks && (x, d) in k.deps ensures SameGraph(k.tasks[x], contract) {
        assert (x, d) in k'.deps && !MismatchedEdge(k', (x, d));
      }
    }
  }

  lemma OldEdgesMatch(c: Core, k: Coord, e: (DelegationId, DelegationId))
    requires Planned(c, k) && e in k.deps
    ensures !MismatchedEdge(k, e) && e.0 in k.tasks
  { assert Bound(k, e); }

  lemma TaskAccepted(c: Core, k: Coord, h: Handoff, contract: Contract)
    requires Planned(c, k) && h.delegation !in contract.deps
    requires contract.resource in k.limits ==> k.limits[contract.resource] == contract.limit
    ensures BoundTask(WithLimit(k, contract.resource, contract.limit), h, contract).Ok? <==> TaskFits(k, h, contract)
  {
    var k1 := WithLimit(k, contract.resource, contract.limit);
    if h.delegation in k.tasks { SameDeps(k, h.delegation, contract.deps); }
    else {
      NewTaskFits(c, k, h, contract);
      var k' := WithTask(k, h.delegation, TaskOf(h, contract), contract.deps);
      var k2 := WithTask(k1, h.delegation, TaskOf(h, contract), contract.deps);
      assert k2.deps == k'.deps && k2.tasks == k'.tasks;
      assert forall e :: MismatchedEdge(k2, e) == MismatchedEdge(k', e);
    }
  }

  lemma DroppedClosed(a: Core, b: Core, lane: LaneId, head: nat, now: int, l: LeaseId)
    requires Consistent(a) && HeadMoves(a, b, lane, head, now) && l in a.claims && a.claims[l].lane == lane
    ensures l in b.claims && !Live(b.claims[l]) && b.claims[l].status != Validating && b.claims[l].delegation == a.claims[l].delegation
  { assert HeadDrops(a, b, l, lane, now) && ClaimOk(a, l); }

  lemma ClaimedWorkClosed(a: Core, b: Core, lane: LaneId, now: int, l: LeaseId)
    requires l in a.claims && ClaimOk(a, l) && l in b.claims && ClaimOk(b, l) && a.claims[l].lane == lane && HeadDrops(a, b, l, lane, now)
    ensures var d := a.claims[l].delegation;
            d in b.delegations && b.delegations[d].state != Ready && b.delegations[d].state != Validating
  { }

  lemma UnclaimedWorkClosed(a: Core, b: Core, lane: LaneId, d: DelegationId)
    requires ReadyDropped(a, b, lane) && d in a.delegations && DelegationOk(a, d) && !HasClaimRow(a, d) && b.delegations[d].lane == lane
    ensures b.delegations[d].state != Ready && b.delegations[d].state != Validating
  { assert b.delegations[d].state != Ready; }

  lemma DroppedWork(a: Core, b: Core, lane: LaneId, head: nat, now: int, d: DelegationId)
    requires Consistent(a) && Consistent(b) && HeadMoves(a, b, lane, head, now) && d in b.delegations && b.delegations[d].lane == lane
    requires forall l :: l in b.claims ==> b.claims[l].lane == a.claims[l].lane && b.claims[l].delegation == a.claims[l].delegation
    ensures b.delegations[d].state != Ready && b.delegations[d].state != Validating
  {
    assert DelegationOk(a, d);
    if HasClaimRow(a, d) {
      var l :| l in a.claims && a.claims[l].delegation == d;
      assert ClaimOk(a, l) && ClaimOk(b, l) && HeadDrops(a, b, l, lane, now);
      ClaimedWorkClosed(a, b, lane, now, l);
    } else { UnclaimedWorkClosed(a, b, lane, d); }
  }

  /** After a head moved nothing on the lane waits for an evaluator. */
  lemma MovedAwaitsNothing(a: Core, b: Core, lane: LaneId, head: nat, now: int)
    requires Consistent(a) && Consistent(b) && HeadMoves(a, b, lane, head, now) && b.claims.Keys == a.claims.Keys
    requires forall l :: l in b.claims ==> b.claims[l].lane == a.claims[l].lane && b.claims[l].delegation == a.claims[l].delegation
    ensures !AwaitsEvaluation(b, lane) && !LaneBusy(b, lane)
    ensures forall d :: d in b.delegations && b.delegations[d].lane == lane ==> b.delegations[d].state != Ready
  {
    forall l | l in b.claims && b.claims[l].lane == lane ensures !Live(b.claims[l]) { DroppedClosed(a, b, lane, head, now, l); }
    forall d | d in b.delegations && b.delegations[d].lane == lane
      ensures b.delegations[d].state != Ready && b.delegations[d].state != Validating
    { DroppedWork(a, b, lane, head, now, d); }
  }

  lemma LanesOfClaims(a: Core, b: Core)
    requires Evolves(a, b) && b.claims.Keys == a.claims.Keys
    ensures forall l :: l in b.claims ==> b.claims[l].lane == a.claims[l].lane && b.claims[l].delegation == a.claims[l].delegation
  {
    forall l | l in b.claims ensures b.claims[l].lane == a.claims[l].lane && b.claims[l].delegation == a.claims[l].delegation {
      assert ClaimEvolves(a, b, l);
    }
  }

  lemma WorkAdmitted(c: Core, h: Handoff, now: int, waiting: seq<LeaseId>)
    requires Consistent(c) && RegisterLane(c, h.lane, h.ownerPath, h.controlRef, h.head, now, waiting).Ok?
    ensures var mid := RegisterLane(c, h.lane, h.ownerPath, h.controlRef, h.head, now, waiting).value;
            BoundDelegation(mid, h).Ok? <==> WorkFits(c, h)
  {
    var mid := RegisterLane(c, h.lane, h.ownerPath, h.controlRef, h.head, now, waiting).value;
    RegisterLaneSound(c, h.lane, h.ownerPath, h.controlRef, h.head, now, waiting);
    LaneWrites(c, h.lane, h.ownerPath, h.controlRef, h.head, now, waiting);
    if h.lane !in c.lanes { NewLaneEmpty(c, mid, h.lane); }
    else if c.lanes[h.lane].head != h.head {
      LanesOfClaims(c, mid);
      MovedAwaitsNothing(c, mid, h.lane, h.head, now);
      MovedKeepsIds(c, mid, h);
    }
  }

  lemma NewLaneEmpty(c: Core, b: Core, lane: LaneId)
    requires Consistent(c) && lane !in c.lanes && b.claims == c.claims && b.delegations == c.delegations
    ensures !LaneBusy(b, lane) && !AwaitsEvaluation(b, lane)
    ensures forall d :: d in b.delegations ==> b.delegations[d].lane != lane
  {
    forall l | l in c.claims ensures c.claims[l].lane != lane { assert ClaimOk(c, l); }
    forall d | d in c.delegations ensures c.delegations[d].lane != lane { assert DelegationOk(c, d); }
  }

  lemma MovedKeepsIds(a: Core, b: Core, h: Handoff)
    requires b.delegations.Keys == a.delegations.Keys
    requires forall d :: d in b.delegations && b.delegations[d].lane == h.lane ==> b.delegations[d].state != Ready
    ensures h.delegation in a.delegations ==> !SameWork(b, h.lane, h.delegation, h.objective, h.head)
  { }

  /** A binding is accepted exactly if contract, limit, lane, work and task fit. */
  lemma BindingAccepted(c: Core, k: Coord, h: Handoff, contract: Contract, now: int, waiting: seq<LeaseId>)
    requires Consistent(c) && Planned(c, k)
    requires Admissible(h, contract) && (contract.resource in k.limits ==> k.limits[contract.resource] == contract.limit) ==>
               (RegisterLane(c, h.lane, h.ownerPath, h.controlRef, h.head, now, waiting).Ok?
                <==> AcceptsLane(c, h.lane, h.ownerPath, h.controlRef))
    ensures Bind(c, k, h, contract, now, waiting).Ok? <==> AcceptsBinding(c, k, h, contract)
  {
    if Admissible(h, contract) && (contract.resource in k.limits ==> k.limits[contract.resource] == contract.limit) {
      if AcceptsLane(c, h.lane, h.ownerPath, h.controlRef) {
        WorkAdmitted(c, h, now, waiting);
        TaskAccepted(c, k, h, contract);
      }
    }
  }

  // ---- claim ----

  /** The dependency is completed work of the same graph and version. */
  predicate Delivered(c: Core, k: Coord, d: DelegationId, y: DelegationId)
    requires d in k.tasks
  {
    && y in k.tasks && k.tasks[y].graph == k.tasks[d].graph && k.tasks[y].version == k.tasks[d].version
    && y in c.delegations && c.delegations[y].state == Completed
  }

  /** The lease counts against the resource: it is live, or its run was told to stop and did not say that it did. */
  predicate Holds(c: Core, k: Coord, resource: nat, l: LeaseId)
    requires l in c.claims
  {
    var r := c.claims[l];
    && r.delegation in k.tasks && k.tasks[r.delegation].resource == resource
    && (Live(r) || (r.dispatch in c.outbox && c.outbox[r.dispatch].state == CancelRequested))
  }

  /** The plan lets the work start: this handoff is bound and not cancelled, all it depends on is completed, and its resource
      has room under the fixed limit. */
  ghost predicate MayStart(c: Core, k: Coord, h: Handoff) {
    && h.delegation in k.tasks
    && var t := k.tasks[h.delegation];
    && t.handoffDigest == h.digest && !t.cancelled
    && (forall y :: (h.delegation, y) in k.deps ==> Delivered(c, k, h.delegation, y))
    && t.resource in k.limits && k.limits[t.resource] == t.limit
    && |set l | l in c.claims && Holds(c, k, t.resource, l)| < t.limit
  }

  /** Inside the window of the handoff, and inside the shift if it is night work. */
  predicate InWindow(h: Handoff, now: int, shiftOpen: bool) {
    && (h.notBefore.None? || h.notBefore.value <= now) && (h.notAfter.None? || now < h.notAfter.value) && (h.overnight ==> shiftOpen)
  }

  /** A repetition of a claim is accepted while its lease is live. */
  ghost predicate RepeatsClaim(c: Core, h: Handoff) {
    forall l :: HoldsKey(c, l, h.key) ==> IsFor(c.claims[l], h.lane, h.delegation, h.objective, h.head) && Live(c.claims[l])
  }

  ghost predicate AcceptsStart(
    c: Core, k: Coord, h: Handoff, contract: Contract, shiftOpen: bool, queued: set<DelegationId>, now: int, ttl: int,
    lease: LeaseId, dispatch: DispatchId)
  {
    && Admissible(h, contract) && InWindow(h, now, shiftOpen) && 30 <= ttl <= 3600 && RepeatsClaim(c, h)
    && ((forall l :: !HoldsKey(c, l, h.key)) ==>
          && MayStart(c, k, h) && Leasable(c, h.lane, h.delegation, h.objective, h.head, lease, dispatch)
          && h.delegation !in queued)
  }

  lemma MayStartIs(c: Core, k: Coord, h: Handoff)
    ensures Eligible(c, k, h) <==> MayStart(c, k, h)
  {
    if h.delegation in k.tasks {
      var t := k.tasks[h.delegation];
      assert Occupants(c, k, t.resource) == set l | l in c.claims && Holds(c, k, t.resource, l);
      forall y ensures Delivered(c, k, h.delegation, y) <==> DependencyMet(c, k, t, y) { }
    }
  }

  lemma KeyHeld(c: Core, key: nat)
    ensures KeyUsed(c, key) ==> HoldsKey(c, HolderOf(c, key), key)
    ensures !KeyUsed(c, key) ==> forall l :: !HoldsKey(c, l, key)
  { forall l | HoldsKey(c, l, key) ensures KeyUsed(c, key) { } }

  lemma StartAccepted(
    c: Core, k: Coord, h: Handoff, contract: Contract, shiftOpen: bool, queued: set<DelegationId>, now: int, ttl: int,
    lease: LeaseId, dispatch: DispatchId)
    requires KeysDiffer(c)
    ensures CoordClaim(c, k, h, contract, shiftOpen, queued, now, ttl, lease, dispatch).Ok?
            <==> AcceptsStart(c, k, h, contract, shiftOpen, queued, now, ttl, lease, dispatch)
  {
    MayStartIs(c, k, h);
    KeyHeld(c, h.key);
  }

  /** The work of the handoff is leased for `ttl` seconds, with the dispatch that the handoff asks for. */
  ghost predicate HandoffGranted(a: Core, b: Core, h: Handoff, now: int, ttl: int, lease: LeaseId, dispatch: DispatchId) {
    GrantedTo(a, b, Request(h.lane, h.delegation, h.objective, h.head, h.key, h.kind, h.payload, ttl, now, lease, dispatch))
  }

  lemma ClaimWrites(c: Core, h: Handoff, now: int, ttl: int, lease: LeaseId, dispatch: DispatchId)
    requires Grantable(c, RequestOf(h, now, ttl, lease, dispatch)) && Fresh(c, RequestOf(h, now, ttl, lease, dispatch))
    ensures HandoffGranted(c, Grant(c, RequestOf(h, now, ttl, lease, dispatch)), h, now, ttl, lease, dispatch)
  { GrantWrites(c, RequestOf(h, now, ttl, lease, dispatch)); }

  // ---- request_cancel ----

  predicate ClaimSame(a: Core, b: Core, l: LeaseId)
    requires l in a.claims
  {
    var d := a.claims[l].dispatch;
    l in b.claims && b.claims[l] == a.claims[l] && d in a.outbox && DispatchIs(a, b, l, a.outbox[d].state)
  }

  /** The live claim is cancelled; a run that has the dispatch is told to stop. */
  predicate ClaimCancelled(a: Core, b: Core, l: LeaseId, now: int)
    requires l in a.claims
  {
    && a.claims[l].dispatch in a.outbox && ClaimEnds(a, b, l, Cancelled, Some(now), OtherDoc(3))
    && DispatchIs(a, b, l, if a.outbox[a.claims[l].dispatch].run.Some? then CancelRequested else OutCancelled)
  }

  /** Task, delegation and claim of the work are as before. */
  ghost predicate WorkSame(a: Core, k: Coord, b: Core, k': Coord, x: DelegationId)
    requires x in a.delegations
  {
    && (x in k'.tasks <==> x in k.tasks) && (x in k.tasks ==> k'.tasks[x] == k.tasks[x])
    && x in b.delegations && b.delegations[x] == a.delegations[x]
    && forall l {:trigger ClaimSame(a, b, l)} :: l in a.claims && a.claims[l].delegation == x ==> ClaimSame(a, b, l)
  }

  predicate StopsClaim(a: Core, b: Core, l: LeaseId, now: int)
    requires l in a.claims
  {
    if Live(a.claims[l]) then ClaimCancelled(a, b, l, now) else ClaimSame(a, b, l)
  }

  /** The work is cancelled: its task is marked, its delegation CANCELLED, and its live claim, if any, ended. */
  ghost predicate WorkCancelled(a: Core, k: Coord, b: Core, k': Coord, x: DelegationId, now: int)
    requires x in a.delegations
  {
    && x in k.tasks && x in k'.tasks && k'.tasks[x] == k.tasks[x].(cancelled := true)
    && x in b.delegations && b.delegations[x] == a.delegations[x].(state := Cancelled)
    && forall l {:trigger StopsClaim(a, b, l, now)} :: l in a.claims && a.claims[l].delegation == x ==> StopsClaim(a, b, l, now)
  }

  /** What becomes of work that a cancellation reaches, or not. */
  ghost predicate WorkAfter(a: Core, k: Coord, b: Core, k': Coord, x: DelegationId, reached: bool, now: int)
    requires x in a.delegations
  {
    if reached && x in k.tasks && a.delegations[x].state != Completed && a.delegations[x].state != Cancelled && !k.tasks[x].cancelled
    then WorkCancelled(a, k, b, k', x, now) else WorkSame(a, k, b, k', x)
  }

  lemma CancelIdleRows(c: Core, k: Coord, d: DelegationId, now: int, x: DelegationId)
    requires Consistent(c) && d in k.tasks && d in c.delegations && !HasLive(c, d) && !CancelSettled(c, k, d) && x in c.delegations
    ensures var b, k' := CancelIdle(c, d, now), k.(tasks := k.tasks[d := k.tasks[d].(cancelled := true)]);
            WorkAfter(c, k, b, k', x, x == d, now) && b.claims.Keys == c.claims.Keys
  {
    var b := CancelIdle(c, d, now);
    forall l | l in c.claims ensures ClaimSame(c, b, l) { assert ClaimOk(c, l); }
    forall l | l in c.claims && c.claims[l].delegation == d ensures StopsClaim(c, b, l, now) { assert ClaimSame(c, b, l); }
  }

  lemma CancelLiveRows(c: Core, k: Coord, d: DelegationId, now: int, x: DelegationId)
    requires Consistent(c) && d in k.tasks && d in c.delegations && HasLive(c, d) && !CancelSettled(c, k, d) && x in c.delegations
    ensures var l := LiveOf(c, d);
            var b := Release(c, l, Cancelled, CancelOut(c, l), 1, CancelLogged, OtherDoc(3), now);
            && WorkAfter(c, k, b, k.(tasks := k.tasks[d := k.tasks[d].(cancelled := true)]), x, x == d, now)
            && b.claims.Keys == c.claims.Keys
  {
    var l := LiveOf(c, d);
    var b := Release(c, l, Cancelled, CancelOut(c, l), 1, CancelLogged, OtherDoc(3), now);
    assert ClaimOk(c, l);
    forall m | m in c.claims && m != l ensures ClaimSame(c, b, m) {
      ReleaseSpares(c, l, Cancelled, CancelOut(c, l), 1, CancelLogged, OtherDoc(3), now, m);
    }
    assert StopsClaim(c, b, l, now);
  }

  lemma CancelOneRows(c: Core, k: Coord, d: DelegationId, now: int, x: DelegationId)
    requires Consistent(c) && Planned(c, k) && x in c.delegations
    ensures CancelOne(c, k, d, now).Ok?
    ensures var r := CancelOne(c, k, d, now).value; WorkAfter(c, k, r.0, r.1, x, x == d, now) && r.0.claims.Keys == c.claims.Keys
  {
    CancelOneKeeps(c, k, d, now);
    if d in k.tasks {
      assert TaskOk(c, k, d);
      if CancelSettled(c, k, d) { SameAfter(c, k, x); }
      else if HasLive(c, d) { CancelLiveRows(c, k, d, now, x); }
      else { CancelIdleRows(c, k, d, now, x); }
    } else { SameAfter(c, k, x); }
  }

  lemma SameAfter(c: Core, k: Coord, x: DelegationId)
    requires Consistent(c) && x in c.delegations
    ensures WorkSame(c, k, c, k, x)
  { forall l | l in c.claims ensures ClaimSame(c, c, l) { assert ClaimOk(c, l); } }

  lemma WorkTwice(a: Core, k: Coord, b: Core, k': Coord, c: Core, k'': Coord, x: DelegationId, first: bool, then': bool, now: int)
    requires x in a.delegations && WorkAfter(a, k, b, k', x, first, now)
    requires x in b.delegations && WorkAfter(b, k', c, k'', x, then', now) && !(first && then')
    requires b.claims.Keys == a.claims.Keys
    ensures WorkAfter(a, k, c, k'', x, first || then', now)
  {
    forall l | l in a.claims && a.claims[l].delegation == x ensures l in b.claims && b.claims[l].delegation == x {
      if !ClaimSame(a, b, l) { assert StopsClaim(a, b, l, now); }
    }
    forall l | l in a.claims && a.claims[l].delegation == x
      ensures ClaimSame(a, b, l) && ClaimSame(b, c, l) ==> ClaimSame(a, c, l)
      ensures StopsClaim(a, b, l, now) && ClaimSame(b, c, l) ==> StopsClaim(a, c, l, now)
      ensures ClaimSame(a, b, l) && StopsClaim(b, c, l, now) ==> StopsClaim(a, c, l, now)
    { }
  }

  lemma {:induction false} CancelAllRows(c: Core, k: Coord, rows: seq<DelegationId>, now: int, x: DelegationId)
    requires Consistent(c) && Planned(c, k) && Distinct(rows) && x in c.delegations
    ensures CancelAll(c, k, rows, now).Ok?
    ensures var r := CancelAll(c, k, rows, now).value;
            WorkAfter(c, k, r.0, r.1, x, x in rows, now) && r.0.claims.Keys == c.claims.Keys
    decreases |rows|
  {
    if rows == [] { SameAfter(c, k, x); }
    else {
      CancelOneRows(c, k, rows[0], now, x);
      var one := CancelOne(c, k, rows[0], now).value;
      CancelOneKeeps(c, k, rows[0], now);
      CancelAllRows(one.0, one.1, rows[1..], now, x);
      var r := CancelAll(c, k, rows, now).value;
      forall y | y in rows[1..] ensures y in rows && y != rows[0] { }
      WorkTwice(c, k, one.0, one.1, r.0, r.1, x, x == rows[0], x in rows[1..], now);
    }
  }

  /** The cancellation of `d` reaches `d` itself and, if its policy says so, all that depends on it, directly or not. */
  ghost predicate Reached(k: Coord, d: DelegationId, x: DelegationId)
    requires d in k.tasks
  {
    x == d || (k.tasks[d].cascade && Reaches(k.deps, x, d))
  }

  /** All work that is reached is cancelled unless it was completed or cancelled before, and all other work is left alone. */
  ghost predicate CancelEnds(a: Core, k: Coord, b: Core, k': Coord, d: DelegationId, now: int) {
    && d in k.tasks && k'.deps == k.deps && k'.limits == k.limits && b.claims.Keys == a.claims.Keys
    && forall x {:trigger Reached(k, d, x)} :: x in a.delegations ==> WorkAfter(a, k, b, k', x, Reached(k, d, x), now)
  }

  lemma ReachedIsListed(c: Core, k: Coord, d: DelegationId, cascade: Option<bool>, rows: seq<DelegationId>, now: int, x: DelegationId)
    requires Planned(c, k) && RequestCancel(c, k, d, cascade, rows, now).Ok?
    ensures Reached(k, d, x) <==> x in [d] + rows
  {
    if Reached(k, d, x) { CancelReaches(c, k, d, cascade, rows, now, x); }
    if x in rows && k.tasks[d].cascade { CancelTargetsAreDependents(c, k, d); }
  }

  lemma ListedOnce(k: Coord, d: DelegationId, rows: seq<DelegationId>)
    requires d in k.tasks && Lists(rows, CancelTargets(k, d))
    ensures Distinct([d] + rows)
  {
    var all := [d] + rows;
    forall i, j | 0 <= i < j < |all| ensures all[i] != all[j] {
      assert all[j] == rows[j - 1] && all[j] in rows;
      if i > 0 { assert all[i] == rows[i - 1]; }
    }
  }

  lemma CancelWrites(c: Core, k: Coord, d: DelegationId, cascade: Option<bool>, rows: seq<DelegationId>, now: int)
    requires Consistent(c) && Planned(c, k) && RequestCancel(c, k, d, cascade, rows, now).Ok?
    ensures var r := RequestCancel(c, k, d, cascade, rows, now).value; CancelEnds(c, k, r.0, r.1, d, now)
  {
    var r := RequestCancel(c, k, d, cascade, rows, now).value;
    ListedOnce(k, d, rows);
    CancelAllKeeps(c, k, [d] + rows, now);
    forall x | x in c.delegations ensures WorkAfter(c, k, r.0, r.1, x, Reached(k, d, x), now) {
      CancelAllRows(c, k, [d] + rows, now, x);
      ReachedIsListed(c, k, d, cascade, rows, now, x);
    }
    assert TaskOk(c, k, d);
    CancelAllRows(c, k, [d] + rows, now, d);
  }

  // ---- acknowledge_cancel ----

  /** The run that was told to stop says that it did; of a dispatch that is cancelled already its run may say so again. */
  predicate AcceptsStop(o: OutboxRow, run: RunId) {
    if o.state == OutCancelled then o.run.None? || o.run == Some(run) else o.state == CancelRequested && o.run == Some(run)
  }

  /** The dispatch of the run that stopped is cancelled, and nothing else changes; a repetition changes nothing. */
  ghost predicate StopAcknowledged(a: Core, b: Core, d: DispatchId) {
    && d in a.outbox
    && if a.outbox[d].state == OutCancelled then b == a
       else DispatchRow(a, b, d, OutCancelled, a.outbox[d].attempt, a.outbox[d].run)
  }

  lemma AcknowledgeWrites(c: Core, d: DispatchId, run: RunId, now: int)
    requires AcknowledgeCancel(c, d, run, now).Ok?
    ensures StopAcknowledged(c, AcknowledgeCancel(c, d, run, now).value, d)
  { }
}
