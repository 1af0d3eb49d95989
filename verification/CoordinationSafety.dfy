/** Dependencies, cancellation and capacity: what the coordination tables promise in every reachable state. */
module CoordinationSafety {
  import opened Wrappers
  import opened Tables
  import opened SupervisorSpec
  import opened SupervisorInvariants
  import opened SupervisorSafety
  import opened EvaluationSafety
  import opened FailureSafety
  import opened ValidationGuard
  import opened StoreSteps
  import opened CoordinationSpec
  import opened DependencyGraph

  predicate TaskOk(c: Core, k: Coord, d: DelegationId)
    requires d in k.tasks
  {
    var t := k.tasks[d];
    && d in c.delegations
    && (t.cancelled ==> Dead(c.delegations[d].state))
    && t.resource in k.limits && k.limits[t.resource] == t.limit
  }

  predicate LimitSet(k: Coord, r: nat)
    requires r in k.limits
  {
    1 <= k.limits[r] <= 64
  }

  ghost predicate TasksOk(c: Core, k: Coord) { forall d {:trigger TaskOk(c, k, d)} :: d in k.tasks ==> TaskOk(c, k, d) }

  predicate Bound(k: Coord, e: (DelegationId, DelegationId)) { e.0 in k.tasks }

  ghost predicate GraphOk(k: Coord) { !Cyclic(k.deps) && !Mismatched(k) }

  /** What the plan itself promises, whoever grants leases. */
  ghost predicate Planned(c: Core, k: Coord) {
    && TasksOk(c, k) && GraphOk(k)
    && (forall e {:trigger Bound(k, e)} :: e in k.deps ==> Bound(k, e))
    && (forall r {:trigger LimitSet(k, r)} :: r in k.limits ==> LimitSet(k, r))
  }

  /** Whoever has a claim has the dependency completed. */
  ghost predicate EdgeClosed(c: Core, e: (DelegationId, DelegationId)) {
    HasClaimRow(c, e.0) ==> e.1 in c.delegations && c.delegations[e.1].state == Completed
  }

  ghost predicate Closed(c: Core, k: Coord) { forall e {:trigger EdgeClosed(c, e)} :: e in k.deps ==> EdgeClosed(c, e) }

  predicate Fits(c: Core, k: Coord, r: nat)
    requires r in k.limits
  {
    |Occupants(c, k, r)| <= k.limits[r]
  }

  ghost predicate WithinLimits(c: Core, k: Coord) { forall r {:trigger Fits(c, k, r)} :: r in k.limits ==> Fits(c, k, r) }

  /** The plan is kept, and so are the two promises that also depend on how leases are granted. */
  ghost predicate PlanKept(a: Core, k: Coord, b: Core, k': Coord) {
    Planned(b, k') && (Closed(a, k) ==> Closed(b, k')) && (WithinLimits(a, k) ==> WithinLimits(b, k'))
  }

  /** Resources keep their limits, dependencies and tasks stay, and a cancelled task stays cancelled. */
  predicate PlanMoves(k: Coord, k': Coord) {
    && k.deps <= k'.deps
    && (forall r :: r in k.limits ==> r in k'.limits && k'.limits[r] == k.limits[r])
    && (forall d {:trigger d in k.tasks} :: d in k.tasks ==>
          d in k'.tasks && TaskMoves(k.tasks[d], k'.tasks[d]))
    && (forall e {:trigger e in k'.deps} :: e in k'.deps && e.0 in k.tasks ==> e in k.deps)
  }

  predicate TaskMoves(t: TaskRow, u: TaskRow) { u.(cancelled := t.cancelled) == t && (t.cancelled ==> u.cancelled) }

  // ---- Transactions that grant nothing ----

  lemma OccupantsShrink(a: Core, b: Core, k: Coord, r: nat)
    requires Consistent(a) && Consistent(b) && Evolves(a, b) && b.claims.Keys == a.claims.Keys
    ensures Occupants(b, k, r) <= Occupants(a, k, r)
  {
    forall l | l in Occupants(b, k, r) ensures l in Occupants(a, k, r) {
      assert ClaimEvolves(a, b, l) && ClaimOk(a, l) && ClaimOk(b, l);
      assert DispatchEvolves(a, b, a.claims[l].dispatch);
    }
  }

  lemma SmallerSet(x: set<LeaseId>, y: set<LeaseId>)
    requires x <= y
    ensures |x| <= |y|
  {
    assert y == x + (y - x);
  }

  lemma EvolvedPlan(a: Core, b: Core, k: Coord)
    requires DelegationsEvolve(a, b) && Planned(a, k)
    ensures Planned(b, k)
  {
    forall d | d in k.tasks ensures TaskOk(b, k, d) { assert TaskOk(a, k, d) && DelegationEvolves(a, b, d); }
  }

  lemma QuietKeeps(a: Core, b: Core, k: Coord)
    requires Consistent(a) && Consistent(b) && Evolves(a, b) && b.claims.Keys == a.claims.Keys
    requires Planned(a, k)
    ensures PlanKept(a, k, b, k)
  {
    EvolvedPlan(a, b, k);
    if Closed(a, k) {
      forall e | e in k.deps ensures EdgeClosed(b, e) {
        assert EdgeClosed(a, e);
        if HasClaimRow(b, e.0) { SameClaimed(a, b, e.0); assert DelegationEvolves(a, b, e.1); }
      }
    }
    if WithinLimits(a, k) {
      forall r | r in k.limits ensures Fits(b, k, r) {
        assert Fits(a, k, r);
        OccupantsShrink(a, b, k, r);
        SmallerSet(Occupants(b, k, r), Occupants(a, k, r));
      }
    }
  }

  lemma SameClaimed(a: Core, b: Core, d: DelegationId)
    requires ClaimsEvolve(a, b) && b.claims.Keys == a.claims.Keys && HasClaimRow(b, d)
    ensures HasClaimRow(a, d)
  {
    var l :| l in b.claims && b.claims[l].delegation == d;
    assert ClaimEvolves(a, b, l);
  }

  // ---- Grants ----

  /** Every direct dependency of the delegation is completed. */
  predicate Supplied(c: Core, k: Coord, d: DelegationId) {
    forall e {:trigger e in k.deps} :: e in k.deps && e.0 == d ==> e.1 in c.delegations && c.delegations[e.1].state == Completed
  }

  /** The resource of the delegation, if it has one, has a free slot. */
  predicate HasRoom(c: Core, k: Coord, d: DelegationId) {
    d in k.tasks ==> k.tasks[d].resource in k.limits && |Occupants(c, k, k.tasks[d].resource)| < k.limits[k.tasks[d].resource]
  }

  lemma EligibleFits(c: Core, k: Coord, h: Handoff)
    requires Eligible(c, k, h)
    ensures Supplied(c, k, h.delegation) && HasRoom(c, k, h.delegation)
  {
    forall e | e in k.deps && e.0 == h.delegation ensures e.1 in c.delegations && c.delegations[e.1].state == Completed {
      assert (h.delegation, e.1) in k.deps;
      assert DependencyMet(c, k, k.tasks[h.delegation], e.1);
    }
  }

  /** The new claim is the only new occupant. */
  lemma GrantOccupants(c: Core, k: Coord, q: Request, r: nat)
    requires Consistent(c) && Grantable(c, q) && Fresh(c, q)
    ensures Occupants(Grant(c, q), k, r)
            == if q.delegation in k.tasks && k.tasks[q.delegation].resource == r then Occupants(c, k, r) + {q.lease}
               else Occupants(c, k, r)
  {
    var b := Grant(c, q);
    forall l | l in c.claims ensures l in Occupants(b, k, r) <==> l in Occupants(c, k, r) { assert ClaimOk(c, l); }
  }

  /** A grant keeps the dependency closure if and only if the dependencies of the delegation are completed. */
  lemma GrantClosed(c: Core, k: Coord, q: Request)
    requires Consistent(c) && Grantable(c, q) && Fresh(c, q) && Closed(c, k)
    ensures Closed(Grant(c, q), k) <==> Supplied(c, k, q.delegation)
  {
    var b := Grant(c, q);
    assert b.claims[q.lease].delegation == q.delegation;
    if Supplied(c, k, q.delegation) {
      forall e | e in k.deps ensures EdgeClosed(b, e) {
        assert EdgeClosed(c, e);
        if HasClaimRow(b, e.0) && e.0 != q.delegation {
          var l :| l in b.claims && b.claims[l].delegation == e.0;
          assert l in c.claims;
        }
      }
    }
    if Closed(b, k) {
      forall e | e in k.deps && e.0 == q.delegation ensures e.1 in c.delegations && c.delegations[e.1].state == Completed {
        assert EdgeClosed(b, e);
      }
    }
  }

  /** A grant keeps every resource within its limit if and only if the resource of the delegation had a free slot. */
  lemma GrantWithinLimits(c: Core, k: Coord, q: Request)
    requires Consistent(c) && Grantable(c, q) && Fresh(c, q) && Planned(c, k) && WithinLimits(c, k)
    ensures WithinLimits(Grant(c, q), k) <==> HasRoom(c, k, q.delegation)
  {
    var b := Grant(c, q);
    forall r | r in k.limits
      ensures Fits(b, k, r) <==> (q.delegation in k.tasks && k.tasks[q.delegation].resource == r ==> HasRoom(c, k, q.delegation))
    {
      assert Fits(c, k, r);
      GrantOccupants(c, k, q, r);
    }
    if q.delegation in k.tasks {
      assert TaskOk(c, k, q.delegation);
      assert Fits(b, k, k.tasks[q.delegation].resource) <==> HasRoom(c, k, q.delegation);
    }
  }

  lemma GrantPlanned(c: Core, k: Coord, q: Request)
    requires Consistent(c) && Grantable(c, q) && Fresh(c, q) && Planned(c, k)
    ensures Planned(Grant(c, q), k)
  { GrantEvolves(c, q); EvolvedPlan(c, Grant(c, q), k); }

  /** With the dependencies completed and a free slot, a grant keeps all promises of the plan. */
  lemma GrantKeepsPlan(c: Core, k: Coord, q: Request)
    requires Consistent(c) && Grantable(c, q) && Fresh(c, q) && Planned(c, k)
    requires Supplied(c, k, q.delegation) && HasRoom(c, k, q.delegation)
    ensures PlanKept(c, k, Grant(c, q), k)
  {
    GrantPlanned(c, k, q);
    if Closed(c, k) { GrantClosed(c, k, q); }
    if WithinLimits(c, k) { GrantWithinLimits(c, k, q); }
  }

  lemma CoordClaimKeeps(
    c: Core, k: Coord, h: Handoff, contract: Contract, shiftOpen: bool, queued: set<DelegationId>,
    now: int, ttl: int, lease: LeaseId, dispatch: DispatchId)
    requires Consistent(c) && Planned(c, k)
    requires CoordClaim(c, k, h, contract, shiftOpen, queued, now, ttl, lease, dispatch).Ok?
    ensures Forward(c, CoordClaim(c, k, h, contract, shiftOpen, queued, now, ttl, lease, dispatch).value)
    ensures PlanKept(c, k, CoordClaim(c, k, h, contract, shiftOpen, queued, now, ttl, lease, dispatch).value, k)
  {
    if KeyUsed(c, h.key) { SoundSame(c); }
    else {
      var q := RequestOf(h, now, ttl, lease, dispatch);
      GrantKeeps(c, q);
      GrantEvolves(c, q);
      EligibleFits(c, k, h);
      GrantKeepsPlan(c, k, q);
    }
  }

  // ---- bind ----

  lemma LimitKeeps(c: Core, k: Coord, resource: nat, limit: int)
    requires Consistent(c) && Planned(c, k) && 1 <= limit <= 64
    ensures PlanKept(c, k, c, WithLimit(k, resource, limit)) && PlanMoves(k, WithLimit(k, resource, limit))
  {
    var k' := WithLimit(k, resource, limit);
    forall d | d in k.tasks ensures TaskOk(c, k', d) { assert TaskOk(c, k, d); }
    forall e | e in k'.deps ensures !MismatchedEdge(k', e) && Bound(k', e) { assert !MismatchedEdge(k, e) && Bound(k, e); }
    forall r | r in k'.limits ensures LimitSet(k', r) { assert r in k.limits ==> LimitSet(k, r); }
    if WithinLimits(c, k) {
      forall r | r in k'.limits ensures Fits(c, k', r) {
        assert Occupants(c, k', r) == Occupants(c, k, r);
        if r in k.limits { assert Fits(c, k, r); } else { NobodyOccupies(c, k, r); }
      }
    }
  }

  lemma NobodyOccupies(c: Core, k: Coord, r: nat)
    requires Planned(c, k) && r !in k.limits
    ensures Occupants(c, k, r) == {}
  {
    forall l | l in c.claims ensures !Occupies(c, k, r, l) {
      if c.claims[l].delegation in k.tasks { assert TaskOk(c, k, c.claims[l].delegation); }
    }
  }

  lemma ReadyHasNoClaim(c: Core, d: DelegationId)
    requires Consistent(c) && d in c.delegations && c.delegations[d].state == Ready
    ensures !HasClaimRow(c, d)
  {
    forall l | l in c.claims ensures c.claims[l].delegation != d { assert ClaimOk(c, l); }
  }

  lemma TaskKeeps(c: Core, k: Coord, d: DelegationId, t: TaskRow, deps: set<DelegationId>)
    requires Consistent(c) && Planned(c, k) && d !in k.tasks
    requires d in c.delegations && c.delegations[d].state == Ready
    requires !t.cancelled && t.resource in k.limits && k.limits[t.resource] == t.limit
    requires GraphOk(WithTask(k, d, t, deps))
    ensures PlanKept(c, k, c, WithTask(k, d, t, deps)) && PlanMoves(k, WithTask(k, d, t, deps))
  {
    var k' := WithTask(k, d, t, deps);
    ReadyHasNoClaim(c, d);
    forall x | x in k'.tasks ensures TaskOk(c, k', x) { if x != d { assert TaskOk(c, k, x); } }
    forall e | e in k'.deps ensures Bound(k', e) { if e in k.deps { assert Bound(k, e); } }
    forall r | r in k'.limits ensures LimitSet(k', r) { assert LimitSet(k, r); }
    if Closed(c, k) {
      forall e | e in k'.deps ensures EdgeClosed(c, e) { if e in k.deps { assert EdgeClosed(c, e); } }
    }
    if WithinLimits(c, k) {
      forall r | r in k'.limits ensures Fits(c, k', r) {
        assert Fits(c, k, r);
        forall l | l in Occupants(c, k', r) ensures l in Occupants(c, k, r) { assert c.claims[l].delegation != d; }
        SmallerSet(Occupants(c, k', r), Occupants(c, k, r));
      }
    }
  }

  lemma BoundDelegationSound(c: Core, h: Handoff)
    requires Consistent(c) && h.lane in c.lanes && BoundDelegation(c, h).Ok?
    ensures Sound(c, BoundDelegation(c, h).value)
    ensures h.delegation in BoundDelegation(c, h).value.delegations
    ensures BoundDelegation(c, h).value.delegations[h.delegation].state == Ready
  {
    if h.delegation in c.delegations { SoundSame(c); }
    else {
      AddReadySound(c, h.lane, h.delegation, DelegationRow(h.lane, h.objective, h.head, Ready, h.evaluated));
    }
  }

  lemma BoundTaskKeeps(c: Core, k: Coord, h: Handoff, contract: Contract)
    requires Consistent(c) && Planned(c, k) && ValidContract(h, contract)
    requires h.delegation in c.delegations && c.delegations[h.delegation].state == Ready
    requires contract.resource in k.limits ==> k.limits[contract.resource] == contract.limit
    requires BoundTask(WithLimit(k, contract.resource, contract.limit), h, contract).Ok?
    ensures PlanKept(c, k, c, BoundTask(WithLimit(k, contract.resource, contract.limit), h, contract).value)
    ensures PlanMoves(k, BoundTask(WithLimit(k, contract.resource, contract.limit), h, contract).value)
  {
    var k1 := WithLimit(k, contract.resource, contract.limit);
    LimitKeeps(c, k, contract.resource, contract.limit);
    if h.delegation !in k1.tasks { TaskKeeps(c, k1, h.delegation, TaskOf(h, contract), contract.deps); }
  }

  lemma BindingLogged(a: Core, c: Core, k: Coord, k': Coord, h: Handoff, now: int)
    requires Consistent(a) && Sound(a, c) && PlanKept(a, k, c, k')
    ensures var b := c.(events := c.events + [BoundEvent(h, now)]); Sound(a, b) && PlanKept(a, k, b, k')
  {
    var b := c.(events := c.events + [BoundEvent(h, now)]);
    LogSound(c, [BoundEvent(h, now)]);
    SoundTwice(a, c, b);
    QuietKeeps(c, b, k');
  }

  lemma BindKeeps(c: Core, k: Coord, h: Handoff, contract: Contract, now: int, waiting: seq<LeaseId>)
    requires Consistent(c) && Planned(c, k) && Bind(c, k, h, contract, now, waiting).Ok?
    ensures var r := Bind(c, k, h, contract, now, waiting).value;
            Sound(c, r.0) && PlanKept(c, k, r.0, r.1) && PlanMoves(k, r.1)
  {
    var c1 := RegisterLane(c, h.lane, h.ownerPath, h.controlRef, h.head, now, waiting).value;
    var c2 := BoundDelegation(c1, h).value;
    RegisterLaneSound(c, h.lane, h.ownerPath, h.controlRef, h.head, now, waiting);
    BoundDelegationSound(c1, h);
    SoundTwice(c, c1, c2);
    QuietKeeps(c, c2, k);
    BoundTaskKeeps(c2, k, h, contract);
    if h.delegation !in k.tasks { BindingLogged(c, c2, k, Bind(c, k, h, contract, now, waiting).value.1, h, now); }
  }

  // ---- cancellation ----

  lemma CancelIdleForward(c: Core, d: DelegationId, now: int)
    requires Consistent(c) && d in c.delegations && !HasLive(c, d)
    requires c.delegations[d].state != Completed
    ensures Forward(c, CancelIdle(c, d, now))
  {
    var b := CancelIdle(c, d, now);
    forall l | l in b.claims ensures ClaimOk(b, l) { assert ClaimOk(c, l); }
    forall x | x in b.delegations ensures DelegationFits(c, b, x) { assert DelegationOk(c, x); }
    ClaimFreeKeeps(c, b);
  }

  lemma CancelIdleSound(c: Core, d: DelegationId, now: int)
    requires Consistent(c) && d in c.delegations && !HasLive(c, d)
    requires c.delegations[d].state != Completed
    ensures Sound(c, CancelIdle(c, d, now))
  {
    CancelIdleForward(c, d, now);
    if Shown(c) { CancelIdleGuarded(c, d, now); }
    ClaimFreeSound(c, CancelIdle(c, d, now));
  }

  lemma FlagKeeps(c: Core, k: Coord, d: DelegationId)
    requires Planned(c, k) && d in k.tasks && d in c.delegations && Dead(c.delegations[d].state)
    ensures PlanKept(c, k, c, k.(tasks := k.tasks[d := k.tasks[d].(cancelled := true)]))
  {
    var k' := k.(tasks := k.tasks[d := k.tasks[d].(cancelled := true)]);
    forall x | x in k'.tasks ensures TaskOk(c, k', x) { assert TaskOk(c, k, x); }
    forall e | e in k.deps ensures Bound(k', e) && !MismatchedEdge(k', e) { assert Bound(k, e) && !MismatchedEdge(k, e); }
    forall r | r in k'.limits ensures LimitSet(k', r) { assert LimitSet(k, r); }
    if WithinLimits(c, k) {
      forall r | r in k'.limits ensures Fits(c, k', r) {
        assert Fits(c, k, r);
        assert Occupants(c, k', r) == Occupants(c, k, r);
      }
    }
  }

  /** Nothing but cancellation marks differs between two versions of the coordination tables. */
  predicate SamePlan(k: Coord, k': Coord) {
    && k'.deps == k.deps && k'.limits == k.limits && k'.tasks.Keys == k.tasks.Keys
    && forall d :: d in k.tasks ==> TaskMoves(k.tasks[d], k'.tasks[d])
  }

  /** A cancelled delegation is completed already, or dead for ever. */
  predicate Settled(c: Core, d: DelegationId) {
    d in c.delegations && (c.delegations[d].state == Completed || Dead(c.delegations[d].state))
  }

  ghost predicate CompletesNothing(a: Core, b: Core) {
    forall d :: d in b.delegations && b.delegations[d].state == Completed ==> d in a.delegations && a.delegations[d].state == Completed
  }

  lemma CancelOneSound(c: Core, k: Coord, d: DelegationId, now: int)
    requires Consistent(c) && d in k.tasks && d in c.delegations && !CancelSettled(c, k, d)
    ensures Sound(c, CancelOne(c, k, d, now).value.0)
    ensures d in CancelOne(c, k, d, now).value.0.delegations
    ensures CancelOne(c, k, d, now).value.0.delegations[d].state == Cancelled
    ensures CompletesNothing(c, CancelOne(c, k, d, now).value.0)
  {
    if HasLive(c, d) {
      var l := LiveOf(c, d);
      assert ClaimOk(c, l);
      ReleaseSound(c, l, Cancelled, CancelOut(c, l), 1, CancelLogged, OtherDoc(3), now);
    } else { CancelIdleSound(c, d, now); }
  }

  /** What cancelling some work keeps. */
  ghost predicate CancelKept(c: Core, k: Coord, b: Core, k': Coord) {
    Sound(c, b) && PlanKept(c, k, b, k') && SamePlan(k, k') && CompletesNothing(c, b)
  }

  lemma CancelKeptTwice(c: Core, k: Coord, c1: Core, k1: Coord, c2: Core, k2: Coord)
    requires Consistent(c) && CancelKept(c, k, c1, k1) && CancelKept(c1, k1, c2, k2)
    ensures CancelKept(c, k, c2, k2)
  { SoundTwice(c, c1, c2); }

  lemma CancelOneKeeps(c: Core, k: Coord, d: DelegationId, now: int)
    requires Consistent(c) && Planned(c, k)
    ensures CancelOne(c, k, d, now).Ok?
    ensures var r := CancelOne(c, k, d, now).value; CancelKept(c, k, r.0, r.1) && (d in k.tasks ==> Settled(r.0, d))
  {
    if d !in k.tasks { SoundSame(c); }
    else {
      assert TaskOk(c, k, d);
      if CancelSettled(c, k, d) { SoundSame(c); } else { CancelFlagged(c, k, d, now); }
    }
  }

  lemma FlagSettles(c: Core, k: Coord, d: DelegationId, b: Core)
    requires Consistent(c) && Planned(c, k) && d in k.tasks && Sound(c, b) && CompletesNothing(c, b)
    requires d in b.delegations && b.delegations[d].state == Cancelled
    ensures CancelKept(c, k, b, k.(tasks := k.tasks[d := k.tasks[d].(cancelled := true)]))
  {
    QuietKeeps(c, b, k);
    FlagKeeps(b, k, d);
  }

  lemma CancelFlagged(c: Core, k: Coord, d: DelegationId, now: int)
    requires Consistent(c) && Planned(c, k) && d in k.tasks && d in c.delegations && !CancelSettled(c, k, d)
    ensures CancelOne(c, k, d, now).Ok?
    ensures var r := CancelOne(c, k, d, now).value; CancelKept(c, k, r.0, r.1) && Settled(r.0, d)
  {
    CancelOneSound(c, k, d, now);
    FlagSettles(c, k, d, CancelOne(c, k, d, now).value.0);
  }

  lemma StaysSettled(a: Core, b: Core, d: DelegationId)
    requires DelegationsEvolve(a, b) && Settled(a, d)
    ensures Settled(b, d)
  { assert DelegationEvolves(a, b, d); }

  lemma {:induction false} CancelAllKeeps(c: Core, k: Coord, rows: seq<DelegationId>, now: int)
    requires Consistent(c) && Planned(c, k)
    ensures CancelAll(c, k, rows, now).Ok?
    ensures var r := CancelAll(c, k, rows, now).value;
            CancelKept(c, k, r.0, r.1) && forall d :: d in rows && d in k.tasks ==> Settled(r.0, d)
    decreases |rows|
  {
    if rows == [] { SoundSame(c); }
    else {
      CancelOneKeeps(c, k, rows[0], now);
      var one := CancelOne(c, k, rows[0], now).value;
      CancelAllKeeps(one.0, one.1, rows[1..], now);
      var r := CancelAll(c, k, rows, now).value;
      CancelKeptTwice(c, k, one.0, one.1, r.0, r.1);
      forall d | d in rows && d in k.tasks ensures Settled(r.0, d) {
        if d == rows[0] { StaysSettled(one.0, r.0, d); } else { assert d in rows[1..] && d in one.1.tasks; }
      }
    }
  }

  lemma RequestCancelKeeps(
    c: Core, k: Coord, d: DelegationId, cascade: Option<bool>, rows: seq<DelegationId>, now: int)
    requires Consistent(c) && Planned(c, k) && RequestCancel(c, k, d, cascade, rows, now).Ok?
    ensures var r := RequestCancel(c, k, d, cascade, rows, now).value;
            Sound(c, r.0) && PlanKept(c, k, r.0, r.1) && SamePlan(k, r.1)
  { CancelAllKeeps(c, k, [d] + rows, now); }

  lemma AcknowledgeCancelSound(c: Core, d: DispatchId, run: RunId, now: int)
    requires Consistent(c) && AcknowledgeCancel(c, d, run, now).Ok?
    ensures Sound(c, AcknowledgeCancel(c, d, run, now).value)
  {
    var b := AcknowledgeCancel(c, d, run, now).value;
    if c.outbox[d].state == OutCancelled { SoundSame(c); }
    else {
      assert OutboxRowOk(c, d) && ClaimOk(c, c.outbox[d].lease);
      TouchSound(c, b, c.outbox[d].lease);
    }
  }

  // ---- What the transactions add up to ----

  /** A delegation with a claim has all its transitive dependencies completed. */
  lemma {:induction false} DependencyClosureAlong(c: Core, k: Coord, p: seq<nat>)
    requires Consistent(c) && Closed(c, k) && IsWalk(k.deps, p) && HasClaimRow(c, p[0])
    ensures p[|p| - 1] in c.delegations && c.delegations[p[|p| - 1]].state == Completed
    decreases |p|
  {
    assert (p[0], p[0 + 1]) in k.deps;
    assert EdgeClosed(c, (p[0], p[1]));
    if |p| > 2 {
      assert DelegationOk(c, p[1]);
      assert IsWalk(k.deps, p[1..]);
      DependencyClosureAlong(c, k, p[1..]);
    }
  }

  lemma DependencyClosure(c: Core, k: Coord, d: DelegationId, y: DelegationId)
    requires Consistent(c) && Closed(c, k) && HasClaimRow(c, d) && Reaches(k.deps, d, y)
    ensures y in c.delegations && c.delegations[y].state == Completed
  {
    var p :| IsWalk(k.deps, p) && p[0] == d && p[|p| - 1] == y;
    DependencyClosureAlong(c, k, p);
  }

  /** The graph filter of the worklist drops no dependent: a chain of dependency rows stays in one graph. */
  lemma {:induction false} FilterDropsNone(c: Core, k: Coord, d: DelegationId, p: seq<nat>)
    requires Planned(c, k) && d in k.tasks && IsWalk(k.deps, p) && p[|p| - 1] == d
    ensures IsWalk(GraphEdges(k, k.tasks[d].graph, k.tasks[d].version), p)
    ensures p[0] in k.tasks && k.tasks[p[0]].graph == k.tasks[d].graph && k.tasks[p[0]].version == k.tasks[d].version
    decreases |p|
  {
    var g := GraphEdges(k, k.tasks[d].graph, k.tasks[d].version);
    assert (p[0], p[0 + 1]) in k.deps;
    assert Bound(k, (p[0], p[1]));
    assert !MismatchedEdge(k, (p[0], p[1]));
    if |p| > 2 {
      assert IsWalk(k.deps, p[1..]);
      FilterDropsNone(c, k, d, p[1..]);
      forall i | 0 <= i < |p| - 1 ensures (p[i], p[i + 1]) in g {
        if i > 0 { assert p[i] == p[1..][i - 1] && p[i + 1] == p[1..][i - 1 + 1]; }
      }
    }
  }

  lemma CancelTargetsAreDependents(c: Core, k: Coord, d: DelegationId)
    requires Planned(c, k) && d in k.tasks && k.tasks[d].cascade
    ensures CancelTargets(k, d) == Dependents(k.deps, d)
  {
    var g := GraphEdges(k, k.tasks[d].graph, k.tasks[d].version);
    assert !Reaches(k.deps, d, d);
    forall x | x in Dependents(k.deps, d) ensures x in Dependents(g, d) {
      var p :| IsWalk(k.deps, p) && p[0] == x && p[|p| - 1] == d;
      FilterDropsNone(c, k, d, p);
      assert Reaches(g, x, d);
      assert (p[0], p[0 + 1]) in g;
      assert p[0] in Nodes(g);
    }
    forall x | x in Dependents(g, d) ensures x in Dependents(k.deps, d) {
      ReachesMore(g, k.deps, x, d);
      var m := FirstEdge(k.deps, x, d);
      assert x in Nodes(k.deps);
    }
  }

  /** The list of targets has the root, and with cascading everything that depends on it, directly or not. */
  lemma CancelReaches(
    c: Core, k: Coord, d: DelegationId, cascade: Option<bool>, rows: seq<DelegationId>, now: int, x: DelegationId)
    requires Planned(c, k) && RequestCancel(c, k, d, cascade, rows, now).Ok?
    requires x == d || (k.tasks[d].cascade && Reaches(k.deps, x, d))
    ensures x in [d] + rows && x in k.tasks
  {
    if x != d {
      CancelTargetsAreDependents(c, k, d);
      var m := FirstEdge(k.deps, x, d);
      assert Bound(k, (x, m));
      assert x in Nodes(k.deps);
      assert x in rows;
    }
  }

  /** After a cascading cancellation the root and everything that depends on it, directly or not, is dead, unless it
      was completed before. */
  lemma CascadeKills(
    c: Core, k: Coord, d: DelegationId, cascade: Option<bool>, rows: seq<DelegationId>, now: int, x: DelegationId)
    requires Consistent(c) && Planned(c, k) && RequestCancel(c, k, d, cascade, rows, now).Ok?
    requires x == d || (k.tasks[d].cascade && Reaches(k.deps, x, d))
    ensures var b := RequestCancel(c, k, d, cascade, rows, now).value.0;
            x in c.delegations && x in b.delegations
            && (if c.delegations[x].state == Completed then b.delegations[x].state == Completed
                else Dead(b.delegations[x].state))
  {
    CancelAllKeeps(c, k, [d] + rows, now);
    CancelReaches(c, k, d, cascade, rows, now, x);
    assert TaskOk(c, k, x);
    assert DelegationEvolves(c, RequestCancel(c, k, d, cascade, rows, now).value.0, x);
  }

  /** A dead delegation stays dead: it has no live claim, is never completed and is never claimed again. */
  lemma DeadForEver(a: Core, b: Core, d: DelegationId)
    requires Consistent(a) && Consistent(b) && Evolves(a, b)
    requires d in a.delegations && Dead(a.delegations[d].state)
    ensures d in b.delegations && Dead(b.delegations[d].state)
    ensures !HasLive(b, d)
    ensures forall l :: l in b.claims && b.claims[l].delegation == d ==> l in a.claims
  {
    assert DelegationEvolves(a, b, d);
    forall l | l in b.claims && b.claims[l].delegation == d ensures l in a.claims && !Live(b.claims[l]) {
      assert ClaimOk(b, l);
      assert l !in a.claims ==> ClaimAppears(a, b, l);
    }
  }

  /** A delegation is claimed at most once in its life, and COMPLETED is for ever. */
  lemma ClaimedOnce(a: Core, b: Core, l: LeaseId, m: LeaseId)
    requires Consistent(a) && Consistent(b) && Evolves(a, b)
    requires l in a.claims && m in b.claims && b.claims[m].delegation == a.claims[l].delegation
    ensures l == m
    ensures var d := a.claims[l].delegation;
            d in a.delegations && d in b.delegations
            && (a.delegations[d].state == Completed ==> b.delegations[d].state == Completed)
  {
    assert ClaimOk(a, l) && ClaimEvolves(a, b, l) && DelegationEvolves(a, b, a.claims[l].delegation);
  }
}
