/** What the end of a lease leaves behind, over whole runs: a run that was acknowledged is told to stop whenever somebody else
    than its worker ends the lease, and it occupies its resource until it says that it did. */
module EndingRuns {
  import opened Wrappers
  import opened Tables
  import opened DependencyGraph
  import opened SupervisorSpec
  import opened SupervisorInvariants
  import opened SupervisorSafety
  import opened StoreSteps
  import opened SupervisorEffects
  import opened CoordinationSpec
  import opened CoordinationSafety
  import opened CoordinationEffects
  import opened ExecutionSpec
  import opened ExecutionSafety
  import opened LeaseRecovery
  import opened ExecutionEffects
  import opened SecondShift
  import opened SecondShiftRuns
  import opened CoordinationRuns

  /** The lease is live, and an acknowledged run executes its dispatch. */
  predicate RunUnder(c: Core, l: LeaseId) {
    && LeaseLive(c, l) && c.claims[l].dispatch in c.outbox
    && c.outbox[c.claims[l].dispatch].state == Dispatched && c.outbox[c.claims[l].dispatch].run.Some?
  }

  /** The lease is live, and nobody has taken up its dispatch. */
  predicate Untaken(c: Core, l: LeaseId) {
    && LeaseLive(c, l) && c.claims[l].dispatch in c.outbox && c.outbox[c.claims[l].dispatch].run.None?
    && (c.outbox[c.claims[l].dispatch].state == Pending || c.outbox[c.claims[l].dispatch].state == RetryWait)
  }

  /** If the lease has been ended for its worker, its run was told to stop, or its dispatch was withdrawn. */
  ghost predicate EndsWell(a: Core, b: Core, l: LeaseId) {
    l in a.claims && l in b.claims && (b.claims[l].status == Stale || b.claims[l].status == Cancelled) ==>
      var d := a.claims[l].dispatch;
      && (RunUnder(a, l) ==> Stopping(b, d))
      && (Untaken(a, l) ==> d in b.outbox && b.outbox[d].state == OutCancelled)
  }

  lemma StaledEndsWell(a: Core, b: Core, l: LeaseId, now: int, reason: Doc)
    requires l in a.claims && StaledLease(a, b, l, now, reason)
    ensures EndsWell(a, b, l)
  { }

  lemma SameEndsWell(a: Core, b: Core, l: LeaseId)
    requires Consistent(a) && (l in a.claims && l in b.claims && LeaseLive(a, l) ==> b.claims[l].status == a.claims[l].status)
    ensures EndsWell(a, b, l)
  { if l in a.claims { assert ClaimOk(a, l); } }

  lemma HeadEndsWell(a: Core, b: Core, lane: LaneId, head: nat, now: int, l: LeaseId)
    requires Consistent(a) && HeadMoves(a, b, lane, head, now)
    ensures EndsWell(a, b, l)
  {
    if LeaseLive(a, l) {
      assert HeadDrops(a, b, l, lane, now) && ClaimOk(a, l);
      if a.claims[l].lane == lane { StaledEndsWell(a, b, l, now, OtherDoc(0)); } else { SameEndsWell(a, b, l); }
    }
  }

  lemma LaneEndsWell(a: Core, b: Core, lane: LaneId, owner: nat, ref: nat, head: nat, now: int, l: LeaseId)
    requires Consistent(a) && LaneRegisters(a, b, lane, owner, ref, head, now)
    ensures EndsWell(a, b, l)
  { if lane in a.lanes && a.lanes[lane].head != head { HeadEndsWell(a, b, lane, head, now, l); } else { SameEndsWell(a, b, l); } }

  lemma RecoverEndsWell(a: Core, b: Core, now: int, sla: int, l: LeaseId)
    requires Consistent(a) && RecoverEnds(a, b, now, sla)
    ensures EndsWell(a, b, l)
  {
    if LeaseLive(a, l) {
      assert RecoveredLease(a, b, l, now, sla) && ClaimOk(a, l);
      if b.claims[l].status == Stale { StaledEndsWell(a, b, l, now, OtherDoc(1)); } else { SameEndsWell(a, b, l); }
    }
  }

  lemma TerminalEndsWell(a: Core, b: Core, lease: LeaseId, s: Status, payload: Doc, now: int, l: LeaseId)
    requires Consistent(a) && if LeaseLive(a, lease) then LeaseEnds(a, b, lease, s, payload, now) && s != Cancelled else b == a
    ensures EndsWell(a, b, l)
  {
    if LeaseLive(a, l) {
      assert ClaimOk(a, l);
      if l == lease && s == Stale { assert RunStops(a, b, l); }
    }
  }

  lemma StoreEndsWell(c: Core, op: StoreOp, now: int, l: LeaseId)
    requires Consistent(c) && CoreStep(c, op, now).Ok?
    ensures EndsWell(c, CoreStep(c, op, now).value, l)
  {
    var b := CoreStep(c, op, now).value;
    match op {
      case RegisterLaneOp(lane, owner, ref, head, waiting) =>
        LaneWrites(c, lane, owner, ref, head, now, waiting);
        LaneEndsWell(c, b, lane, owner, ref, head, now, l);
      case InvalidateHeadOp(lane, head, waiting) =>
        HeadWrites(c, lane, head, now, waiting);
        if c.lanes[lane].head == head { SameEndsWell(c, b, l); } else { HeadEndsWell(c, b, lane, head, now, l); }
      case RecoverOp(sla, live, waiting) =>
        RecoverEffect(c, now, sla, live, waiting);
        RecoverEndsWell(c, b, now, sla, l);
      case TerminalOp(lease, token, s, payload) =>
        TerminalWrites(c, lease, token, s, payload, now);
        TerminalEndsWell(c, b, lease, s, payload, now, l);
      case _ => OthersEndWell(c, op, now, l);
    }
  }

  lemma OthersEndWell(c: Core, op: StoreOp, now: int, l: LeaseId)
    requires Consistent(c) && CoreStep(c, op, now).Ok?
    requires !op.RegisterLaneOp? && !op.InvalidateHeadOp? && !op.RecoverOp? && !op.TerminalOp?
    ensures EndsWell(c, CoreStep(c, op, now).value, l)
  { if LeaseLive(c, l) { assert ClaimOk(c, l); } }

  lemma CancelEndsWell(a: Core, k: Coord, b: Core, k': Coord, d: DelegationId, now: int, l: LeaseId)
    requires Consistent(a) && CancelEnds(a, k, b, k', d, now)
    ensures EndsWell(a, b, l)
  {
    if LeaseLive(a, l) {
      assert ClaimOk(a, l);
      var x := a.claims[l].delegation;
      assert WorkAfter(a, k, b, k', x, Reached(k, d, x), now);
      if WorkSame(a, k, b, k', x) { assert ClaimSame(a, b, l); } else { assert StopsClaim(a, b, l, now); }
    }
  }

  lemma BindFromLane(c: Core, k: Coord, h: Handoff, contract: Contract, now: int, waiting: seq<LeaseId>)
    requires Bind(c, k, h, contract, now, waiting).Ok?
    ensures var mid := RegisterLane(c, h.lane, h.ownerPath, h.controlRef, h.head, now, waiting);
            && mid.Ok? && Bind(c, k, h, contract, now, waiting).value.0.claims == mid.value.claims
            && Bind(c, k, h, contract, now, waiting).value.0.outbox == mid.value.outbox
  { }

  lemma BindEndsWell(c: Core, k: Coord, h: Handoff, contract: Contract, now: int, waiting: seq<LeaseId>, l: LeaseId)
    requires Consistent(c) && Bind(c, k, h, contract, now, waiting).Ok?
    ensures EndsWell(c, Bind(c, k, h, contract, now, waiting).value.0, l)
  {
    BindFromLane(c, k, h, contract, now, waiting);
    LaneWrites(c, h.lane, h.ownerPath, h.controlRef, h.head, now, waiting);
    LaneEndsWell(c, RegisterLane(c, h.lane, h.ownerPath, h.controlRef, h.head, now, waiting).value,
                 h.lane, h.ownerPath, h.controlRef, h.head, now, l);
  }

  lemma RequestEndsWell(c: Core, k: Coord, d: DelegationId, cascade: Option<bool>, rows: seq<DelegationId>, now: int, l: LeaseId)
    requires Consistent(c) && Planned(c, k) && RequestCancel(c, k, d, cascade, rows, now).Ok?
    ensures EndsWell(c, RequestCancel(c, k, d, cascade, rows, now).value.0, l)
  {
    CancelWrites(c, k, d, cascade, rows, now);
    var r := RequestCancel(c, k, d, cascade, rows, now).value;
    CancelEndsWell(c, k, r.0, r.1, d, now, l);
  }

  lemma PlanEndsWell(w: World, op: PlanOp, now: int, l: LeaseId)
    requires WorldOk(w) && PlanStep(w, op, now).Ok?
    ensures EndsWell(w.core, PlanStep(w, op, now).value.core, l)
  {
    match op {
      case BindOp(h, k, waiting) => BindEndsWell(w.core, w.coord, h, k, now, waiting, l);
      case RequestCancelOp(d, cascade, rows) => RequestEndsWell(w.core, w.coord, d, cascade, rows, now, l);
      case _ => SameEndsWell(w.core, PlanStep(w, op, now).value.core, l);
    }
  }

  lemma CarriedEndsWell(c: Core, e: Exec, b: Core, f: Exec, kinds: set<nat>, ttl: int, now: int, sla: int, l: LeaseId)
    requires Consistent(c) && CarriesOn(c, e, b, f, kinds, ttl, now, sla)
    ensures EndsWell(c, b, l)
  {
    if LeaseLive(c, l) {
      assert OneCarried(c, e, b, f, l, true, kinds, ttl, now, sla) && ClaimOk(c, l);
    }
  }

  lemma SealEndsWell(c: Core, t: Ticket, now: int, l: LeaseId)
    requires Consistent(c) && Seal(c, t, now).Ok?
    ensures EndsWell(c, Seal(c, t, now).value, l)
  {
    TerminalWrites(c, t.lease, t.token, t.outcome, t.payload, now);
    TerminalEndsWell(c, Seal(c, t, now).value, t.lease, t.outcome, t.payload, now, l);
  }

  lemma LocalEndsWell(c: Core, e: Exec, live: seq<LeaseId>, kinds: set<nat>, ttl: int, now: int, sla: int, l: LeaseId)
    requires Consistent(c) && Executes(c, e) && RecoverLocal(c, e, live, kinds, ttl, now, sla).Ok?
    ensures EndsWell(c, RecoverLocal(c, e, live, kinds, ttl, now, sla).value.0, l)
  {
    RecoverLocalWrites(c, e, live, kinds, ttl, now, sla);
    var r := RecoverLocal(c, e, live, kinds, ttl, now, sla).value;
    CarriedEndsWell(c, e, r.0, r.1, kinds, ttl, now, sla, l);
  }

  lemma RenewalEndsWell(c: Core, e: Exec, x: Context, ttl: int, now: int, l: LeaseId)
    requires Consistent(c) && RenewExecution(c, e, x, ttl, now).Ok?
    ensures EndsWell(c, RenewExecution(c, e, x, ttl, now).value, l)
  {
    RenewalAccepted(c, e, x, ttl, now);
    if LeaseLive(c, l) { assert ClaimOk(c, l); }
  }

  lemma WorkerEndsWell(w: World, op: WorkerOp, now: int, l: LeaseId)
    requires WorldOk(w) && WorkerStep(w, op, now).Ok?
    ensures EndsWell(w.core, WorkerStep(w, op, now).value.core, l)
  {
    match op {
      case SealOp(t) => SealEndsWell(w.core, t, now, l);
      case RecoverLocalOp(live, kinds, ttl, sla) => LocalEndsWell(w.core, w.exec, live, kinds, ttl, now, sla, l);
      case RenewExecutionOp(x, ttl) => RenewalEndsWell(w.core, w.exec, x, ttl, now, l);
      case _ => SameEndsWell(w.core, WorkerStep(w, op, now).value.core, l);
    }
  }

  lemma ClaimEndsWell(w: World, op: ClaimOp, now: int, l: LeaseId)
    requires WorldOk(w) && ClaimStep(w, op, now).Ok?
    ensures EndsWell(w.core, ClaimStep(w, op, now).value.core, l)
  {
    ClaimStepKeeps(w, op, now);
    GrantedEndsWell(w, TakenDelegation(op), ClaimStep(w, op, now).value, l);
  }

  lemma GrantedEndsWell(w: World, x: DelegationId, v: World, l: LeaseId)
    requires Consistent(w.core) && Granted(w, x, v)
    ensures EndsWell(w.core, v.core, l)
  {
    if v.core != w.core {
      var q: Request :| q.delegation == x && Grantable(w.core, q) && Fresh(w.core, q) && v.core == Grant(w.core, q);
    }
    SameEndsWell(w.core, v.core, l);
  }

  /** Whatever ends a live lease as STALE or CANCELLED, a recovery, a moved head, a supervisor or a cancellation, tells its
      acknowledged run to stop and withdraws a dispatch that nobody took up. */
  lemma EndedRunStops(w: World, m: Move, l: LeaseId)
    requires WorldOk(w) && LeaseLive(w.core, l)
    ensures EndsWell(w.core, Next(w, m).core, l)
  {
    if Step(w, m.op, m.now).Ok? {
      match m.op {
        case OfStore(o) => StoreEndsWell(w.core, o, m.now, l);
        case OfClaim(o) => ClaimEndsWell(w, o, m.now, l);
        case OfPlan(o) => PlanEndsWell(w, o, m.now, l);
        case OfWorker(o) => WorkerEndsWell(w, o, m.now, l);
      }
    } else { SameEndsWell(w.core, w.core, l); }
  }

  /** So a run whose lease was ended for it occupies its resource in every later state before its acknowledgement. */
  lemma EndedRunKeepsSlot(w: World, m: Move, l: LeaseId, ms: seq<Move>)
    requires Reachable(w) && RunUnder(w.core, l) && w.core.claims[l].delegation in w.coord.tasks
    requires l in Next(w, m).core.claims
    requires Next(w, m).core.claims[l].status == Stale || Next(w, m).core.claims[l].status == Cancelled
    requires NeverAcknowledged(Next(w, m), ms, w.core.claims[l].dispatch)
    ensures var v := After(Next(w, m), ms);
            && l in v.core.claims && !Live(v.core.claims[l])
            && l in Occupants(v.core, v.coord, w.coord.tasks[w.core.claims[l].delegation].resource)
  {
    ReachableOk(w);
    NextKeeps(w, m);
    EndedRunStops(w, m, l);
    StoppedKeepsSlot(w, Next(w, m), ms, l);
  }
}
