/** The whole Second Shift system: any number of actors interleave the transactions of the store, the coordination
    adapter, the night scheduler and the execution worker; a crash is a transaction that never comes. */
module SecondShift {
  import opened Wrappers
  import opened Tables
  import opened DependencyGraph
  import opened SupervisorSpec
  import opened SupervisorInvariants
  import opened SupervisorSafety
  import opened EvaluationSafety
  import opened FailureSafety
  import opened ValidationGuard
  import opened StoreSteps
  import opened CoordinationSpec
  import opened CoordinationSafety
  import opened NightSpec
  import opened NightSafety
  import opened ExecutionSpec
  import opened ExecutionSafety
  import opened LeaseRecovery

  /** The database, and what the actors carry between two transactions: staged rows that a committing worker has
      read, those whose supervisor part went through, and leases that `recover` reported stale. */
  datatype World = World(
    core: Core, coord: Coord, night: Night, exec: Exec,
    tickets: set<Ticket>, seals: set<Ticket>, reports: set<LeaseId>)

  /** Supervisor store: every transaction but the grant. */
  datatype StoreOp =
    | RegisterLaneOp(lane: LaneId, owner: nat, ref: nat, head: nat, waiting: seq<LeaseId>)
    | BindReadyOp(lane: LaneId, delegation: DelegationId, objective: nat, head: nat, evaluated: bool)
    | MarkDispatchedOp(dispatch: DispatchId, run: RunId)
    | DispatchFailedOp(dispatch: DispatchId, error: nat, budget: int, failure: nat)
    | HeartbeatOp(lease: LeaseId, token: int)
    | RenewLeaseOp(lease: LeaseId, token: int, ttl: int)
    | AwaitEvaluationOp(lease: LeaseId, token: int, digest: nat, candidate: nat, timeout: int)
    | EvaluatorVerdictOp(lease: LeaseId, token: int, verdict: Doc)
    | TerminalOp(lease: LeaseId, token: int, status: Status, payload: Doc)
    | InvalidateHeadOp(lane: LaneId, head: nat, waiting: seq<LeaseId>)
    | RecoverOp(sla: int, live: seq<LeaseId>, waiting: seq<LeaseId>)

  /** The three ways to a lease. */
  datatype ClaimOp =
    | ClaimReadyOp(request: Request, shiftOpen: bool)
    | CoordClaimOp(handoff: Handoff, contract: Contract, shiftOpen: bool, ttl: int, lease: LeaseId, dispatch: DispatchId)
    | NightClaimOp(handoff: Handoff, contract: Contract, shiftOpen: bool, nightKey: nat, limit: int, ttl: int,
                   lease: LeaseId, dispatch: DispatchId)

  /** Coordination adapter and night scheduler. */
  datatype PlanOp =
    | BindOp(handoff: Handoff, contract: Contract, waiting: seq<LeaseId>)
    | RequestCancelOp(delegation: DelegationId, cascade: Option<bool>, targets: seq<DelegationId>)
    | AcknowledgeCancelOp(dispatch: DispatchId, run: RunId)
    | EnqueueOp(handoff: Handoff, contract: Contract)
    | QueueBoundOp(delegation: DelegationId)
    | QueueClaimedOp(delegation: DelegationId)
    | ReconcileOp

  /** Execution worker. */
  datatype WorkerOp =
    | AcquireOp(dispatch: DispatchId, token: int, worker: WorkerId, retrySafe: bool, attempt: AttemptId)
    | RenewExecutionOp(context: Context, ttl: int)
    | StageOp(context: Context, status: Status, result: nat)
    | RecordAuthorityLostOp(context: Context)
    | ReadStagedOp(dispatch: DispatchId)
    | SealOp(ticket: Ticket)
    | FinishOp(ticket: Ticket)
    | RecoverLocalOp(live: seq<LeaseId>, kinds: set<nat>, ttl: int, sla: int)
    | MarkAuthorityLostOp(stale: set<LeaseId>)

  datatype Op = OfStore(store: StoreOp) | OfClaim(claim: ClaimOp) | OfPlan(plan: PlanOp) | OfWorker(worker: WorkerOp)

  ghost function OnCore(w: World, r: Res<Core>): Res<World> {
    if r.Err? then Err(r.error) else Ok(w.(core := r.value))
  }

  ghost function OnExec(w: World, r: Res<Exec>): Res<World> {
    if r.Err? then Err(r.error) else Ok(w.(exec := r.value))
  }

  ghost function OnCoord(w: World, r: Res<(Core, Coord)>): Res<World> {
    if r.Err? then Err(r.error) else Ok(w.(core := r.value.0, coord := r.value.1))
  }

  function StaleLeases(c: Core): set<LeaseId> { set l | l in c.claims && c.claims[l].status == Stale }

  ghost function CoreStep(c: Core, op: StoreOp, now: int): Res<Core> {
    match op
    case RegisterLaneOp(lane, owner, ref, head, waiting) => RegisterLane(c, lane, owner, ref, head, now, waiting)
    case BindReadyOp(lane, d, objective, head, evaluated) => BindReady(c, lane, d, objective, head, evaluated, now)
    case MarkDispatchedOp(d, run) => MarkDispatched(c, d, run, now)
    case DispatchFailedOp(d, error, budget, failure) =>
      var r := DispatchFailed(c, d, error, budget, failure, now); if r.Err? then Err(r.error) else Ok(r.value.0)
    case HeartbeatOp(l, token) => Beat(c, l, token, None, Heartbeat, now)
    case RenewLeaseOp(l, token, ttl) =>
      if ttl < 30 || ttl > 3600 then Err(BadValue) else Beat(c, l, token, Some(now + ttl), LeaseRenewed, now)
    case AwaitEvaluationOp(l, token, digest, candidate, timeout) => AwaitEvaluation(c, l, token, digest, candidate, timeout, now)
    case EvaluatorVerdictOp(l, token, v) => EvaluatorVerdict(c, l, token, v, now)
    case TerminalOp(l, token, s, payload) => TerminalTx(c, l, token, s, payload, now)
    case InvalidateHeadOp(lane, head, waiting) => InvalidateHead(c, lane, head, now, waiting)
    case RecoverOp(sla, live, waiting) => Recover(c, now, sla, live, waiting)
  }

  /** `recover` also reports the leases that it found stale. */
  ghost function StoreStep(w: World, op: StoreOp, now: int): Res<World> {
    var r := CoreStep(w.core, op, now);
    if r.Err? then Err(r.error)
    else
      Ok(w.(core := r.value,
            reports := if op.RecoverOp? then w.reports + (StaleLeases(r.value) - StaleLeases(w.core)) else w.reports))
  }

  ghost function ClaimStep(w: World, op: ClaimOp, now: int): Res<World> {
    var c := w.core;
    match op
    case ClaimReadyOp(q, shiftOpen) => OnCore(w, ClaimReady(c, q.(now := now), shiftOpen, w.night.queue.Keys))
    case CoordClaimOp(h, k, shiftOpen, ttl, l, d) =>
      OnCore(w, CoordClaim(c, w.coord, h, k, shiftOpen, w.night.queue.Keys, now, ttl, l, d))
    case NightClaimOp(h, k, shiftOpen, nightKey, limit, ttl, l, d) =>
      var r := NightClaim(c, w.coord, w.night, h, k, shiftOpen, nightKey, limit, now, ttl, l, d);
      if r.Err? then Err(r.error) else Ok(w.(core := r.value.0, night := r.value.1))
  }

  ghost function PlanStep(w: World, op: PlanOp, now: int): Res<World> {
    var c := w.core;
    match op
    case BindOp(h, k, waiting) => OnCoord(w, Bind(c, w.coord, h, k, now, waiting))
    case RequestCancelOp(d, cascade, targets) => OnCoord(w, RequestCancel(c, w.coord, d, cascade, targets, now))
    case AcknowledgeCancelOp(d, run) => OnCore(w, AcknowledgeCancel(c, d, run, now))
    case EnqueueOp(h, k) =>
      var r := EnqueueRow(w.night, h, k);
      if r.Err? then Err(r.error) else Ok(w.(night := r.value))
    case QueueBoundOp(d) => Ok(w.(night := QueueBound(w.night, d)))
    case QueueClaimedOp(d) => Ok(w.(night := QueueClaimed(w.night, d)))
    case ReconcileOp => Ok(w.(night := Reconciled(c, w.coord, w.night)))
  }

  ghost function WorkerStep(w: World, op: WorkerOp, now: int): Res<World> {
    var c := w.core;
    match op
    case AcquireOp(d, token, worker, retrySafe, a) =>
      var r := Acquire(c, w.exec, d, token, worker, retrySafe, a, now);
      if r.Err? then Err(r.error) else Ok(w.(exec := r.value.0))
    case RenewExecutionOp(x, ttl) => OnCore(w, RenewExecution(c, w.exec, x, ttl, now))
    case StageOp(x, s, result) => OnExec(w, Stage(c, w.exec, x, s, result, now))
    case RecordAuthorityLostOp(x) => Ok(w.(exec := RecordAuthorityLost(w.exec, x)))
    case ReadStagedOp(d) =>
      var r := ReadStaged(w.exec, d);
      if r.Err? then Err(r.error) else Ok(w.(tickets := w.tickets + {r.value}))
    case SealOp(t) =>
      if t !in w.tickets then Err(Conflict)
      else
        var r := Seal(c, t, now);
        if r.Err? then Err(r.error) else Ok(w.(core := r.value, seals := w.seals + {t}))
    case FinishOp(t) => if t !in w.seals then Err(Conflict) else OnExec(w, Finish(w.exec, t))
    case RecoverLocalOp(live, kinds, ttl, sla) =>
      var r := RecoverLocal(c, w.exec, live, kinds, ttl, now, sla);
      if r.Err? then Err(r.error) else Ok(w.(core := r.value.0, exec := r.value.1))
    case MarkAuthorityLostOp(stale) =>
      if !(stale <= w.reports) then Err(Conflict) else Ok(w.(exec := MarkAuthorityLost(w.exec, stale)))
  }

  ghost function Step(w: World, op: Op, now: int): Res<World> {
    match op
    case OfStore(o) => StoreStep(w, o, now)
    case OfClaim(o) => ClaimStep(w, o, now)
    case OfPlan(o) => PlanStep(w, o, now)
    case OfWorker(o) => WorkerStep(w, o, now)
  }

  // ---- One state and one step ----

  ghost predicate TicketsOk(w: World) {
    && w.seals <= w.tickets
    && (forall t {:trigger TicketOk(w.exec, t)} :: t in w.tickets ==> TicketOk(w.exec, t))
    && (forall t {:trigger SealOk(w.core, t)} :: t in w.seals ==> SealOk(w.core, t))
    && (forall l {:trigger l in w.reports} :: l in w.reports ==> l in w.core.claims && w.core.claims[l].status == Stale)
  }

  ghost predicate WorldOk(w: World) {
    && Consistent(w.core) && Evaluated(w.core) && Accounted(w.core)
    && Planned(w.core, w.coord) && Budgeted(w.core, w.night) && Executes(w.core, w.exec)
    && TicketsOk(w)
  }

  ghost predicate WorldMoves(w: World, v: World) {
    Evolves(w.core, v.core) && ExecMoves(w.exec, v.exec) && NightMoves(w.night, v.night) && PlanMoves(w.coord, v.coord)
  }

  /** The two promises of the plan that depend on how leases are granted; the raw `claim_ready` can break them. */
  ghost predicate PlanHolds(w: World, v: World) {
    && (Closed(w.core, w.coord) ==> Closed(v.core, v.coord))
    && (WithinLimits(w.core, w.coord) ==> WithinLimits(v.core, v.coord))
  }

  function TakenLane(op: ClaimOp): LaneId {
    match op
    case ClaimReadyOp(q, _) => q.lane
    case CoordClaimOp(h, _, _, _, _, _) => h.lane
    case NightClaimOp(h, _, _, _, _, _, _, _) => h.lane
  }

  function TakenDelegation(op: ClaimOp): DelegationId {
    match op
    case ClaimReadyOp(q, _) => q.delegation
    case CoordClaimOp(h, _, _, _, _, _) => h.delegation
    case NightClaimOp(h, _, _, _, _, _, _, _) => h.delegation
  }

  /** The transaction grants a lease: it succeeds, and it is no replay. */
  ghost predicate Grants(w: World, op: Op, now: int) {
    op.OfClaim? && Step(w, op, now).Ok? && Step(w, op, now).value.core.claims.Keys != w.core.claims.Keys
  }

  /** The validation guard: no lease is granted on a lane whose candidate waits for its evaluator. */
  ghost predicate RespectsValidation(w: World, op: Op, now: int) {
    Grants(w, op, now) ==> !LaneInValidation(w.core, TakenLane(op.claim))
  }

  /** A raw `claim_ready` grants coordinated work although a dependency of it is not completed. */
  ghost predicate SkipsDependencies(w: World, op: Op, now: int) {
    Grants(w, op, now) && op.claim.ClaimReadyOp? && !Supplied(w.core, w.coord, TakenDelegation(op.claim))
  }

  /** A raw `claim_ready` grants coordinated work although its resource is full. */
  ghost predicate Overfills(w: World, op: Op, now: int) {
    Grants(w, op, now) && op.claim.ClaimReadyOp? && !HasRoom(w.core, w.coord, TakenDelegation(op.claim))
  }

  // ---- Every step keeps every promise ----

  lemma TicketsStay(w: World, v: World)
    requires Consistent(w.core) && TicketsOk(w) && Evolves(w.core, v.core) && ExecMoves(w.exec, v.exec)
    requires v.tickets == w.tickets && v.seals == w.seals && v.reports == w.reports
    ensures TicketsOk(v)
  {
    forall t | t in v.tickets ensures TicketOk(v.exec, t) { assert TicketOk(w.exec, t); TicketStays(w.exec, v.exec, t); }
    forall t | t in v.seals ensures SealOk(v.core, t) {
      assert SealOk(w.core, t) && TicketOk(w.exec, t);
      SealStays(w.core, v.core, t);
    }
    forall l | l in v.reports ensures l in v.core.claims && v.core.claims[l].status == Stale {
      assert ClaimOk(w.core, l) && ClaimEvolves(w.core, v.core, l);
    }
  }

  ghost predicate StepSafe(w: World, v: World) {
    WorldOk(v) && WorldMoves(w, v) && PlanHolds(w, v) && (Guarded(w.core) ==> Guarded(v.core))
  }

  ghost predicate StepOk(w: World, v: World) { StepSafe(w, v) && (Shown(w.core) ==> Shown(v.core)) }

  lemma CoreStepOk(w: World, c: Core)
    requires WorldOk(w) && Safe(w.core, c)
    ensures StepSafe(w, w.(core := c)) && (Sound(w.core, c) ==> StepOk(w, w.(core := c)))
  {
    var v := w.(core := c);
    QuietKeeps(w.core, c, w.coord);
    SupervisorKeepsBudget(w.core, c, w.night);
    SupervisorKeepsExecution(w.core, c, w.exec);
    ExecMovesReflexive(w.exec);
    TicketsStay(w, v);
  }

  lemma ExecStepOk(w: World, e: Exec)
    requires WorldOk(w) && Executes(w.core, e) && ExecMoves(w.exec, e)
    ensures StepOk(w, w.(exec := e))
  {
    EvolvesReflexive(w.core);
    TicketsStay(w, w.(exec := e));
  }

  lemma SameStepOk(w: World)
    requires WorldOk(w)
    ensures StepOk(w, w)
  {
    EvolvesReflexive(w.core);
    ExecMovesReflexive(w.exec);
  }

  lemma QueueStepOk(w: World, n: Night)
    requires WorldOk(w) && n == w.night.(queue := n.queue) && w.night.queue.Keys <= n.queue.Keys
    ensures StepOk(w, w.(night := n))
  {
    EvolvesReflexive(w.core);
    ExecMovesReflexive(w.exec);
    QueueKeepsBudget(w.core, w.night, n);
  }

  /** What a grant keeps of the supervisor and execution tables; the slot budget is settled separately. */
  ghost predicate GrantSafe(w: World, lane: LaneId, b: Core) {
    && Forward(w.core, b) && Evaluated(b) && Accounted(b) && Planned(b, w.coord) && Executes(b, w.exec)
    && (Guarded(w.core) && !LaneInValidation(w.core, lane) ==> Guarded(b)) && (Shown(w.core) ==> Shown(b))
  }

  lemma GrantOk(w: World, q: Request)
    requires WorldOk(w) && Grantable(w.core, q) && Fresh(w.core, q)
    ensures GrantSafe(w, q.lane, Grant(w.core, q))
  {
    var b := Grant(w.core, q);
    GrantKeeps(w.core, q);
    GrantEvolves(w.core, q);
    GrantKeepsEvaluated(w.core, q);
    GrantPlanned(w.core, w.coord, q);
    GrantTokens(w.core, q);
    SupervisorKeepsExecution(w.core, b, w.exec);
    GrantFailureFree(w.core, q);
    FailureFreeKeeps(w.core, b);
    if Shown(w.core) { GrantShown(w.core, q); }
    if Guarded(w.core) && !LaneInValidation(w.core, q.lane) { GrantGuarded(w.core, q); }
  }

  lemma GrantTokens(c: Core, q: Request)
    requires q.lane in c.lanes && Fresh(c, q)
    ensures TokensKept(c, Grant(c, q))
  { }

  lemma GrantFailureFree(c: Core, q: Request)
    requires q.lane in c.lanes && Fresh(c, q)
    ensures FailureFree(c, Grant(c, q))
  { }

  /** The new world is right, and guarded unless a lease was granted on a lane that waits for an evaluator. */
  ghost predicate ClaimKeeps(w: World, lane: LaneId, v: World) {
    && WorldOk(v) && WorldMoves(w, v) && (Shown(w.core) ==> Shown(v.core)) && v.coord == w.coord
    && (Guarded(w.core) && (v.core.claims.Keys == w.core.claims.Keys || !LaneInValidation(w.core, lane)) ==> Guarded(v.core))
  }

  /** Either a replay, or a lease for the delegation is granted. */
  ghost predicate Granted(w: World, d: DelegationId, v: World) {
    v.core == w.core || exists q: Request :: q.delegation == d && Grantable(w.core, q) && Fresh(w.core, q) && v.core == Grant(w.core, q)
  }

  ghost predicate ClaimOutcome(w: World, lane: LaneId, d: DelegationId, v: World) { ClaimKeeps(w, lane, v) && Granted(w, d, v) }

  lemma GrantStepOk(w: World, q: Request)
    requires WorldOk(w) && Grantable(w.core, q) && Fresh(w.core, q)
    ensures ClaimOutcome(w, q.lane, q.delegation, w.(core := Grant(w.core, q)))
  {
    var v := w.(core := Grant(w.core, q));
    GrantOk(w, q);
    SupervisorKeepsBudget(w.core, v.core, w.night);
    ExecMovesReflexive(w.exec);
    TicketsStay(w, v);
    assert q.lease in v.core.claims && q.lease !in w.core.claims;
    assert Granted(w, q.delegation, v);
  }

  lemma ClaimReadyStep(w: World, q: Request, shiftOpen: bool)
    requires WorldOk(w) && ClaimReady(w.core, q, shiftOpen, w.night.queue.Keys).Ok?
    ensures ClaimOutcome(w, q.lane, q.delegation, w.(core := ClaimReady(w.core, q, shiftOpen, w.night.queue.Keys).value))
  {
    if KeyUsed(w.core, q.key) { SameStepOk(w); } else { GrantStepOk(w, q); }
  }

  lemma CoordClaimStep(
    w: World, h: Handoff, k: Contract, shiftOpen: bool, queued: set<DelegationId>, now: int, ttl: int,
    lease: LeaseId, dispatch: DispatchId)
    requires WorldOk(w) && CoordClaim(w.core, w.coord, h, k, shiftOpen, queued, now, ttl, lease, dispatch).Ok?
    ensures var v := w.(core := CoordClaim(w.core, w.coord, h, k, shiftOpen, queued, now, ttl, lease, dispatch).value);
            ClaimOutcome(w, h.lane, h.delegation, v) && PlanHolds(w, v)
  {
    if KeyUsed(w.core, h.key) { SameStepOk(w); }
    else {
      var q := RequestOf(h, now, ttl, lease, dispatch);
      GrantStepOk(w, q);
      EligibleFits(w.core, w.coord, h);
      GrantKeepsPlan(w.core, w.coord, q);
    }
  }

  lemma BookedGrant(w: World, h: Handoff, q: Request, nightKey: nat, limit: int, slot: Night)
    requires WorldOk(w) && Eligible(w.core, w.coord, h) && q.delegation == h.delegation && q.lane == h.lane
    requires Grantable(w.core, q) && Fresh(w.core, q) && 1 <= limit <= 64
    requires ReserveSlot(w.night, nightKey, limit, Usage(q.delegation, q.lease)) == Ok(slot)
    ensures var v := w.(core := Grant(w.core, q), night := slot); ClaimOutcome(w, h.lane, h.delegation, v) && PlanHolds(w, v)
  {
    var v := w.(core := Grant(w.core, q), night := slot);
    GrantStepOk(w, q);
    EligibleFits(w.core, w.coord, h);
    GrantKeepsPlan(w.core, w.coord, q);
    ReserveKeeps(w.core, w.night, q, nightKey, limit, slot);
    TicketsStay(w, v);
    assert Granted(w, q.delegation, v);
  }

  lemma NightClaimStep(
    w: World, h: Handoff, k: Contract, shiftOpen: bool, nightKey: nat, limit: int, now: int, ttl: int,
    lease: LeaseId, dispatch: DispatchId)
    requires WorldOk(w)
    requires NightClaim(w.core, w.coord, w.night, h, k, shiftOpen, nightKey, limit, now, ttl, lease, dispatch).Ok?
    ensures var r := NightClaim(w.core, w.coord, w.night, h, k, shiftOpen, nightKey, limit, now, ttl, lease, dispatch).value;
            var v := w.(core := r.0, night := r.1);
            ClaimOutcome(w, h.lane, h.delegation, v) && PlanHolds(w, v)
  {
    if KeyUsed(w.core, h.key) { SameStepOk(w); }
    else {
      NightClaimOutcome(w.core, w.coord, w.night, h, k, shiftOpen, nightKey, limit, now, ttl, lease, dispatch);
      BookedGrant(w, h, RequestOf(h, now, ttl, lease, dispatch), nightKey, limit,
                  ReserveSlot(w.night, nightKey, limit, Usage(h.delegation, lease)).value);
    }
  }

  lemma ClaimStepKeeps(w: World, op: ClaimOp, now: int)
    requires WorldOk(w) && ClaimStep(w, op, now).Ok?
    ensures ClaimOutcome(w, TakenLane(op), TakenDelegation(op), ClaimStep(w, op, now).value)
    ensures !op.ClaimReadyOp? ==> PlanHolds(w, ClaimStep(w, op, now).value)
  {
    match op {
      case ClaimReadyOp(q, shiftOpen) => ClaimReadyStep(w, q.(now := now), shiftOpen);
      case CoordClaimOp(h, k, shiftOpen, ttl, l, d) =>
        CoordClaimStep(w, h, k, shiftOpen, w.night.queue.Keys, now, ttl, l, d);
      case NightClaimOp(h, k, shiftOpen, nightKey, limit, ttl, l, d) =>
        NightClaimStep(w, h, k, shiftOpen, nightKey, limit, now, ttl, l, d);
    }
  }

  /** Of all claims only a raw one breaks a promise of the plan, and exactly when it ignores the plan. */
  lemma ClaimStepPlan(w: World, op: ClaimOp, now: int)
    requires WorldOk(w) && ClaimStep(w, op, now).Ok?
    ensures var v := ClaimStep(w, op, now).value;
            && (Closed(w.core, w.coord) ==> (Closed(v.core, v.coord) <==> !SkipsDependencies(w, OfClaim(op), now)))
            && (WithinLimits(w.core, w.coord) ==> (WithinLimits(v.core, v.coord) <==> !Overfills(w, OfClaim(op), now)))
  {
    var v := ClaimStep(w, op, now).value;
    assert Step(w, OfClaim(op), now) == Ok(v);
    ClaimStepKeeps(w, op, now);
    if v.core != w.core {
      var q: Request :| q.delegation == TakenDelegation(op) && Grantable(w.core, q) && Fresh(w.core, q) && v.core == Grant(w.core, q);
      assert q.lease in v.core.claims && q.lease !in w.core.claims;
      if Closed(w.core, w.coord) { GrantClosed(w.core, w.coord, q); }
      if WithinLimits(w.core, w.coord) { GrantWithinLimits(w.core, w.coord, q); }
    }
  }

  /** The grants aside, a store transaction changes the supervisor tables soundly. */
  lemma CoreStepSound(c: Core, op: StoreOp, now: int)
    requires Consistent(c) && CoreStep(c, op, now).Ok? && !op.RecoverOp?
    ensures Sound(c, CoreStep(c, op, now).value)
  {
    match op {
      case RegisterLaneOp(lane, owner, ref, head, waiting) => RegisterLaneSound(c, lane, owner, ref, head, now, waiting);
      case BindReadyOp(lane, d, objective, head, evaluated) => BindReadySound(c, lane, d, objective, head, evaluated, now);
      case MarkDispatchedOp(d, run) => MarkDispatchedSound(c, d, run, now);
      case DispatchFailedOp(d, error, budget, failure) => DispatchFailedSound(c, d, error, budget, failure, now);
      case HeartbeatOp(l, token) =>
        assert CoreStep(c, op, now) == Beat(c, l, token, None, Heartbeat, now);
        BeatSound(c, l, token, None, Heartbeat, now);
      case RenewLeaseOp(l, token, ttl) =>
        assert CoreStep(c, op, now) == Beat(c, l, token, Some(now + ttl), LeaseRenewed, now);
        BeatSound(c, l, token, Some(now + ttl), LeaseRenewed, now);
      case AwaitEvaluationOp(l, token, digest, candidate, timeout) =>
        AwaitEvaluationSound(c, l, token, digest, candidate, timeout, now);
      case EvaluatorVerdictOp(l, token, v) => EvaluatorVerdictSound(c, l, token, v, now);
      case TerminalOp(l, token, s, payload) => TerminalSound(c, l, token, s, payload, now);
      case InvalidateHeadOp(lane, head, waiting) => InvalidateHeadSound(c, lane, head, now, waiting);
    }
  }

  lemma StoreStepKeeps(w: World, op: StoreOp, now: int)
    requires WorldOk(w) && StoreStep(w, op, now).Ok?
    ensures StepSafe(w, StoreStep(w, op, now).value)
    ensures !op.RecoverOp? ==> StepOk(w, StoreStep(w, op, now).value)
  {
    var v := StoreStep(w, op, now).value;
    if op.RecoverOp? { RecoverSafe(w.core, now, op.sla, op.live, op.waiting); } else { CoreStepSound(w.core, op, now); }
    ReportStepOk(w, v.core, v.reports);
  }

  lemma ReportStepOk(w: World, c: Core, reports: set<LeaseId>)
    requires WorldOk(w) && Safe(w.core, c) && forall l :: l in reports ==> l in w.reports || l in StaleLeases(c)
    ensures StepSafe(w, w.(core := c, reports := reports))
  {
    CoreStepOk(w, c);
    var u := w.(core := c);
    var v := w.(core := c, reports := reports);
    assert TicketsOk(u);
    forall t | t in v.tickets ensures TicketOk(v.exec, t) { assert TicketOk(u.exec, t); }
    forall t | t in v.seals ensures SealOk(v.core, t) { assert SealOk(u.core, t); }
    forall l | l in v.reports ensures l in c.claims && c.claims[l].status == Stale { assert l in w.reports ==> l in u.reports; }
  }

  lemma CoordStepOk(w: World, c: Core, k: Coord)
    requires WorldOk(w) && Sound(w.core, c) && PlanKept(w.core, w.coord, c, k) && PlanMoves(w.coord, k)
    ensures StepOk(w, w.(core := c, coord := k))
  {
    CoreStepOk(w, c);
    TicketsStay(w, w.(core := c, coord := k));
  }

  lemma PlanStepKeeps(w: World, op: PlanOp, now: int)
    requires WorldOk(w) && PlanStep(w, op, now).Ok?
    ensures StepOk(w, PlanStep(w, op, now).value)
  {
    var c := w.core;
    match op {
      case BindOp(h, k, waiting) =>
        BindKeeps(c, w.coord, h, k, now, waiting);
        var r := Bind(c, w.coord, h, k, now, waiting).value;
        CoordStepOk(w, r.0, r.1);
      case RequestCancelOp(d, cascade, targets) =>
        RequestCancelKeeps(c, w.coord, d, cascade, targets, now);
        var r := RequestCancel(c, w.coord, d, cascade, targets, now).value;
        CoordStepOk(w, r.0, r.1);
      case AcknowledgeCancelOp(d, run) =>
        AcknowledgeCancelSound(c, d, run, now);
        CoreStepOk(w, AcknowledgeCancel(c, d, run, now).value);
      case EnqueueOp(h, k) => QueueStepOk(w, EnqueueRow(w.night, h, k).value);
      case QueueBoundOp(d) => QueueStepOk(w, QueueBound(w.night, d));
      case QueueClaimedOp(d) => QueueStepOk(w, QueueClaimed(w.night, d));
      case ReconcileOp => QueueStepOk(w, Reconciled(c, w.coord, w.night));
    }
  }

  lemma SealStep(w: World, t: Ticket, now: int)
    requires WorldOk(w) && t in w.tickets && Seal(w.core, t, now).Ok?
    ensures var c := Seal(w.core, t, now).value; StepOk(w, w.(core := c, seals := w.seals + {t}))
  {
    var c := Seal(w.core, t, now).value;
    TerminalSound(w.core, t.lease, t.token, t.outcome, t.payload, now);
    CoreStepOk(w, c);
    SealGives(w.core, t, now);
    var v := w.(core := c, seals := w.seals + {t});
    assert TicketsOk(w.(core := c));
    forall x | x in v.tickets ensures TicketOk(v.exec, x) { assert TicketOk(w.(core := c).exec, x); }
    forall x | x in v.seals ensures SealOk(v.core, x) { if x != t { assert SealOk(w.(core := c).core, x); } }
  }

  lemma ReadStagedStep(w: World, d: DispatchId)
    requires WorldOk(w) && ReadStaged(w.exec, d).Ok?
    ensures StepOk(w, w.(tickets := w.tickets + {ReadStaged(w.exec, d).value}))
  {
    ReadStagedOk(w.core, w.exec, d);
    SameStepOk(w);
  }

  lemma FencesStepOk(w: World, c: Core, e: Exec)
    requires WorldOk(w) && Recovers(w.core, w.exec, c, e)
    ensures StepOk(w, w.(core := c, exec := e))
  {
    QuietKeeps(w.core, c, w.coord);
    SupervisorKeepsBudget(w.core, c, w.night);
    TicketsStay(w, w.(core := c, exec := e));
  }

  lemma RecoverLocalStep(w: World, live: seq<LeaseId>, kinds: set<nat>, ttl: int, now: int, sla: int)
    requires WorldOk(w) && RecoverLocal(w.core, w.exec, live, kinds, ttl, now, sla).Ok?
    ensures var r := RecoverLocal(w.core, w.exec, live, kinds, ttl, now, sla).value;
            StepOk(w, w.(core := r.0, exec := r.1))
  {
    var r := RecoverLocal(w.core, w.exec, live, kinds, ttl, now, sla).value;
    RecoverLocalKeeps(w.core, w.exec, live, kinds, ttl, now, sla);
    FencesStepOk(w, r.0, r.1);
  }

  lemma RenewStep(w: World, x: Context, ttl: int, now: int)
    requires WorldOk(w) && RenewExecution(w.core, w.exec, x, ttl, now).Ok?
    ensures StepOk(w, w.(core := RenewExecution(w.core, w.exec, x, ttl, now).value))
  {
    BeatSound(w.core, w.core.outbox[x.dispatch].lease, x.token, Some(now + ttl), LeaseRenewed, now);
    CoreStepOk(w, RenewExecution(w.core, w.exec, x, ttl, now).value);
  }

  lemma StageStep(w: World, x: Context, s: Status, result: nat, now: int)
    requires WorldOk(w) && Stage(w.core, w.exec, x, s, result, now).Ok?
    ensures StepOk(w, w.(exec := Stage(w.core, w.exec, x, s, result, now).value))
  {
    StageKeeps(w.core, w.exec, x, s, result, now);
    ExecStepOk(w, Stage(w.core, w.exec, x, s, result, now).value);
  }

  lemma FinishStep(w: World, t: Ticket)
    requires WorldOk(w) && t in w.seals && Finish(w.exec, t).Ok?
    ensures StepOk(w, w.(exec := Finish(w.exec, t).value))
  {
    assert TicketOk(w.exec, t) && SealOk(w.core, t);
    FinishKeeps(w.core, w.exec, t);
    ExecStepOk(w, Finish(w.exec, t).value);
  }

  lemma WorkerStepKeeps(w: World, op: WorkerOp, now: int)
    requires WorldOk(w) && WorkerStep(w, op, now).Ok?
    ensures StepOk(w, WorkerStep(w, op, now).value)
  {
    var c := w.core;
    match op {
      case AcquireOp(d, token, worker, retrySafe, a) =>
        AcquireKeeps(c, w.exec, d, token, worker, retrySafe, a, now);
        ExecStepOk(w, Acquire(c, w.exec, d, token, worker, retrySafe, a, now).value.0);
      case RenewExecutionOp(x, ttl) => RenewStep(w, x, ttl, now);
      case StageOp(x, s, result) => StageStep(w, x, s, result, now);
      case RecordAuthorityLostOp(x) =>
        RecordAuthorityLostKeeps(c, w.exec, x);
        ExecStepOk(w, RecordAuthorityLost(w.exec, x));
      case ReadStagedOp(d) => ReadStagedStep(w, d);
      case SealOp(t) => SealStep(w, t, now);
      case FinishOp(t) => FinishStep(w, t);
      case RecoverLocalOp(live, kinds, ttl, sla) => RecoverLocalStep(w, live, kinds, ttl, now, sla);
      case MarkAuthorityLostOp(stale) =>
        MarkAuthorityLostKeeps(c, w.exec, stale);
        ExecStepOk(w, MarkAuthorityLost(w.exec, stale));
    }
  }

  predicate IsRecover(op: Op) { op.OfStore? && op.store.RecoverOp? }

  /** Every transaction of every actor keeps all invariants and moves all tables forward. */
  lemma StepKeeps(w: World, op: Op, now: int)
    requires WorldOk(w) && Step(w, op, now).Ok?
    ensures var v := Step(w, op, now).value;
            && WorldOk(v) && WorldMoves(w, v)
            && (Guarded(w.core) && RespectsValidation(w, op, now) ==> Guarded(v.core))
            && (Shown(w.core) && !IsRecover(op) ==> Shown(v.core))
  {
    match op {
      case OfStore(o) => StoreStepKeeps(w, o, now);
      case OfClaim(o) => ClaimStepKeeps(w, o, now);
      case OfPlan(o) => PlanStepKeeps(w, o, now);
      case OfWorker(o) => WorkerStepKeeps(w, o, now);
    }
  }

  /** Of all transactions of all actors, exactly the claims that ignore the plan break its promises. */
  lemma StepPlan(w: World, op: Op, now: int)
    requires WorldOk(w) && Step(w, op, now).Ok?
    ensures var v := Step(w, op, now).value;
            && (Closed(w.core, w.coord) ==> (Closed(v.core, v.coord) <==> !SkipsDependencies(w, op, now)))
            && (WithinLimits(w.core, w.coord) ==> (WithinLimits(v.core, v.coord) <==> !Overfills(w, op, now)))
  {
    match op {
      case OfStore(o) => StoreStepKeeps(w, o, now);
      case OfClaim(o) => ClaimStepPlan(w, o, now);
      case OfPlan(o) => PlanStepKeeps(w, o, now);
      case OfWorker(o) => WorkerStepKeeps(w, o, now);
    }
  }
}
