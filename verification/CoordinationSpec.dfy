/** The transactions of the coordination adapter (a01_supervisor_coordination_strict.py): dependency graph,
    resource capacity and cascading cancellation over the supervisor tables. */
module CoordinationSpec {
  import opened Wrappers
  import opened Tables
  import opened SupervisorSpec
  import opened DependencyGraph

  datatype Handoff = Handoff(
    lane: LaneId, ownerPath: nat, controlRef: nat, head: nat, delegation: DelegationId, objective: nat, key: nat,
    kind: nat, payload: nat, notBefore: Option<int>, notAfter: Option<int>, overnight: bool,
    order: int, priority: int, evaluated: bool, digest: nat)

  datatype Contract = Contract(
    handoffDigest: nat, graph: nat, version: int, delegation: DelegationId, deps: set<DelegationId>,
    resource: nat, limit: int, cascade: bool)

  datatype TaskRow = TaskRow(
    handoffDigest: nat, graph: nat, version: int, resource: nat, limit: int, cascade: bool, cancelled: bool)

  datatype Coord = Coord(tasks: map<DelegationId, TaskRow>, deps: Edges, limits: map<nat, int>)

  /** `validate_coordination_contract` */
  predicate ValidContract(h: Handoff, k: Contract) {
    && k.handoffDigest == h.digest && k.delegation == h.delegation
    && k.version >= 1 && h.delegation !in k.deps && 1 <= k.limit <= 64
  }

  function TaskOf(h: Handoff, k: Contract): TaskRow {
    TaskRow(h.digest, k.graph, k.version, k.resource, k.limit, k.cascade, false)
  }

  function DepsOf(g: Edges, d: DelegationId): set<DelegationId> { set e | e in g && e.0 == d :: e.1 }

  function EdgesFrom(d: DelegationId, deps: set<DelegationId>): Edges { set y | y in deps :: (d, y) }

  // ---- bind ----

  /** Two tasks of one dependency row belong to different graphs or versions. */
  predicate MismatchedEdge(k: Coord, e: (DelegationId, DelegationId)) {
    && e.0 in k.tasks && e.1 in k.tasks
    && (k.tasks[e.0].graph != k.tasks[e.1].graph || k.tasks[e.0].version != k.tasks[e.1].version)
  }

  ghost predicate Mismatched(k: Coord) { exists e :: e in k.deps && MismatchedEdge(k, e) }

  function WithLimit(k: Coord, resource: nat, limit: int): Coord {
    if resource in k.limits then k else k.(limits := k.limits[resource := limit])
  }

  function WithTask(k: Coord, d: DelegationId, t: TaskRow, deps: set<DelegationId>): Coord {
    k.(tasks := k.tasks[d := t], deps := k.deps + EdgesFrom(d, deps))
  }

  ghost function BoundDelegation(c: Core, h: Handoff): Res<Core> {
    if LaneBusy(c, h.lane) || AwaitsEvaluation(c, h.lane) then Err(Conflict)
    else if h.delegation in c.delegations then
      var e := c.delegations[h.delegation];
      if e.lane == h.lane && e.objective == h.objective && e.head == h.head && e.state == Ready
      then Ok(c) else Err(Conflict)
    else Ok(AddReady(c, h.lane, h.delegation, DelegationRow(h.lane, h.objective, h.head, Ready, h.evaluated)))
  }

  /** A task that is already stored must be the same task. */
  predicate SameTask(k: Coord, h: Handoff, contract: Contract)
    requires h.delegation in k.tasks
  {
    var t := k.tasks[h.delegation];
    t == TaskOf(h, contract).(cancelled := t.cancelled) && DepsOf(k.deps, h.delegation) == contract.deps
  }

  ghost function BoundTask(k: Coord, h: Handoff, contract: Contract): Res<Coord> {
    if h.delegation in k.tasks then
      if SameTask(k, h, contract) then Ok(k) else Err(Conflict)
    else
      var k' := WithTask(k, h.delegation, TaskOf(h, contract), contract.deps);
      if Cyclic(k'.deps) || Mismatched(k') then Err(Conflict) else Ok(k')
  }

  function BoundEvent(h: Handoff, now: int): Event {
    Event(now, h.lane, CoordinationBound, Some(h.delegation), None, None, 0, NoDoc)
  }

  ghost function Bind(
    c: Core, k: Coord, h: Handoff, contract: Contract, now: int, waiting: seq<LeaseId>): Res<(Core, Coord)>
  {
    if !ValidContract(h, contract) then Err(Conflict)
    else if contract.resource in k.limits && k.limits[contract.resource] != contract.limit then Err(Conflict)
    else
      var lane := RegisterLane(c, h.lane, h.ownerPath, h.controlRef, h.head, now, waiting);
      if lane.Err? then Err(lane.error)
      else
        var work := BoundDelegation(lane.value, h);
        if work.Err? then Err(work.error)
        else
          var task := BoundTask(WithLimit(k, contract.resource, contract.limit), h, contract);
          if task.Err? then Err(task.error)
          else if h.delegation in k.tasks then Ok((work.value, task.value))
          else Ok((work.value.(events := work.value.events + [BoundEvent(h, now)]), task.value))
  }

  // ---- claim ----

  predicate WindowOpen(h: Handoff, now: int, shiftOpen: bool) {
    && (h.notBefore.Some? ==> now >= h.notBefore.value)
    && (h.notAfter.Some? ==> now < h.notAfter.value)
    && (h.overnight ==> shiftOpen)
  }

  function RequestOf(h: Handoff, now: int, ttl: int, lease: LeaseId, dispatch: DispatchId): Request {
    Request(h.lane, h.delegation, h.objective, h.head, h.key, h.kind, h.payload, ttl, now, lease, dispatch)
  }

  /** The dependency is a completed delegation of the same graph and version. */
  predicate DependencyMet(c: Core, k: Coord, t: TaskRow, y: DelegationId) {
    && y in k.tasks && k.tasks[y].graph == t.graph && k.tasks[y].version == t.version
    && y in c.delegations && c.delegations[y].state == Completed
  }

  ghost predicate DependenciesMet(c: Core, k: Coord, d: DelegationId)
    requires d in k.tasks
  {
    forall y :: (d, y) in k.deps ==> DependencyMet(c, k, k.tasks[d], y)
  }

  /** The claim holds a slot of the resource: it is live, or its external run is not yet known to have stopped. */
  predicate Occupies(c: Core, k: Coord, resource: nat, l: LeaseId)
    requires l in c.claims
  {
    var r := c.claims[l];
    && r.delegation in k.tasks && k.tasks[r.delegation].resource == resource
    && (Live(r) || (r.dispatch in c.outbox && c.outbox[r.dispatch].state == CancelRequested))
  }

  function Occupants(c: Core, k: Coord, resource: nat): set<LeaseId> {
    set l | l in c.claims && Occupies(c, k, resource, l)
  }

  /** The checks on the durable task row. */
  ghost predicate Eligible(c: Core, k: Coord, h: Handoff) {
    && h.delegation in k.tasks
    && var t := k.tasks[h.delegation];
    && t.handoffDigest == h.digest && !t.cancelled
    && DependenciesMet(c, k, h.delegation)
    && t.resource in k.limits && k.limits[t.resource] == t.limit
    && |Occupants(c, k, t.resource)| < t.limit
  }

  ghost function CoordClaim(
    c: Core, k: Coord, h: Handoff, contract: Contract, shiftOpen: bool, queued: set<DelegationId>,
    now: int, ttl: int, lease: LeaseId, dispatch: DispatchId): Res<Core>
  {
    var q := RequestOf(h, now, ttl, lease, dispatch);
    if !ValidContract(h, contract) || !WindowOpen(h, now, shiftOpen) then Err(Conflict)
    else if ttl < 30 || ttl > 3600 then Err(BadValue)
    else if KeyUsed(c, h.key) then
      if SameClaim(c.claims[HolderOf(c, h.key)], q) && Live(c.claims[HolderOf(c, h.key)]) then Ok(c) else Err(Conflict)
    else if !Eligible(c, k, h) || !Grantable(c, q) || !Fresh(c, q) || h.delegation in queued then Err(Conflict)
    else Ok(Grant(c, q))
  }

  // ---- request_cancel, acknowledge_cancel ----

  ghost predicate HasLive(c: Core, d: DelegationId) {
    exists l :: l in c.claims && c.claims[l].delegation == d && Live(c.claims[l])
  }

  ghost function LiveOf(c: Core, d: DelegationId): LeaseId
    requires HasLive(c, d)
  {
    var l :| l in c.claims && c.claims[l].delegation == d && Live(c.claims[l]); l
  }

  function CancelOut(c: Core, l: LeaseId): OutboxState
    requires l in c.claims
  {
    if c.claims[l].dispatch in c.outbox && c.outbox[c.claims[l].dispatch].run.Some? then CancelRequested else OutCancelled
  }

  function CancelIdle(c: Core, d: DelegationId, now: int): Core
    requires d in c.delegations
  {
    var r := c.delegations[d];
    var lanes := if r.lane in c.lanes && c.lanes[r.lane].current == Some(d)
                 then LaneTo(c.lanes, r.lane, 0, Reconcile, None) else c.lanes;
    c.(lanes := lanes, delegations := DelegationTo(c.delegations, d, Cancelled),
       events := c.events + [Event(now, r.lane, CancelLogged, Some(d), None, None, 0, NoDoc)])
  }

  /** The delegation is left as it is: it is completed or cancelled already. */
  predicate CancelSettled(c: Core, k: Coord, d: DelegationId)
    requires d in k.tasks && d in c.delegations
  {
    c.delegations[d].state == Completed || k.tasks[d].cancelled || c.delegations[d].state == Cancelled
  }

  ghost function CancelOne(c: Core, k: Coord, d: DelegationId, now: int): Res<(Core, Coord)> {
    if d !in k.tasks then Ok((c, k))
    else if d !in c.delegations then Err(Conflict)
    else if CancelSettled(c, k, d) then Ok((c, k))
    else
      var k' := k.(tasks := k.tasks[d := k.tasks[d].(cancelled := true)]);
      if HasLive(c, d) then
        var l := LiveOf(c, d);
        Ok((Release(c, l, Cancelled, CancelOut(c, l), 1, CancelLogged, OtherDoc(3), now), k'))
      else Ok((CancelIdle(c, d, now), k'))
  }

  ghost function CancelAll(c: Core, k: Coord, rows: seq<DelegationId>, now: int): Res<(Core, Coord)>
    decreases |rows|
  {
    if rows == [] then Ok((c, k))
    else
      var one := CancelOne(c, k, rows[0], now);
      if one.Err? then one else CancelAll(one.value.0, one.value.1, rows[1..], now)
  }

  /** The dependency rows whose child belongs to the given graph and version. */
  function GraphEdges(k: Coord, graph: nat, version: int): Edges {
    set e | e in k.deps && e.0 in k.tasks && k.tasks[e.0].graph == graph && k.tasks[e.0].version == version
  }

  /** What the worklist has to find: the dependents of the root within its own graph. */
  ghost function CancelTargets(k: Coord, d: DelegationId): set<DelegationId>
    requires d in k.tasks
  {
    if k.tasks[d].cascade
    then Dependents(GraphEdges(k, k.tasks[d].graph, k.tasks[d].version), d) - {d} else {}
  }

  /** `rows` is the list of targets after the root, in the order in which the worklist found them. */
  ghost function RequestCancel(
    c: Core, k: Coord, d: DelegationId, cascade: Option<bool>, rows: seq<DelegationId>, now: int): Res<(Core, Coord)>
  {
    if d !in k.tasks then Err(Conflict)
    else if cascade.Some? && cascade.value != k.tasks[d].cascade then Err(Conflict)
    else if !Lists(rows, CancelTargets(k, d)) then Err(Conflict)
    else CancelAll(c, k, [d] + rows, now)
  }

  function AcknowledgeCancel(c: Core, d: DispatchId, run: RunId, now: int): Res<Core> {
    if d !in c.outbox then Err(Conflict)
    else
      var o := c.outbox[d];
      if o.state == OutCancelled then
        (if o.run.Some? && o.run.value != run then Err(Conflict) else Ok(c))
      else if o.state != CancelRequested || o.run != Some(run) then Err(Conflict)
      else
        Ok(c.(outbox := OutboxTo(c.outbox, d, OutCancelled),
              events := c.events + [Event(now, o.lane, CancelAcknowledged, None, Some(o.lease), Some(d), 0, NoDoc)]))
  }
}
