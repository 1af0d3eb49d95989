/** Dependencies and capacity over whole runs. The coordination adapter and the night scheduler look at the plan before
    they grant a lease; the raw `claim_ready` of the store does not. The plan holds exactly as long as no raw claim
    ignores it. And the slot of a cancelled run stays occupied until its end is acknowledged. */
module CoordinationRuns {
  import opened Wrappers
  import opened Tables
  import opened DependencyGraph
  import opened SupervisorSpec
  import opened SupervisorInvariants
  import opened SupervisorSafety
  import opened StoreSteps
  import opened CoordinationSpec
  import opened CoordinationSafety
  import opened ExecutionSpec
  import opened ExecutionSafety
  import opened LeaseRecovery
  import opened SecondShift
  import opened SecondShiftRuns

  // ---- Runs that respect the plan ----

  ghost predicate NeverSkips(w: World, ms: seq<Move>)
    decreases |ms|
  {
    ms == [] || (!SkipsDependencies(w, ms[0].op, ms[0].now) && NeverSkips(Next(w, ms[0]), ms[1..]))
  }

  ghost predicate NeverOverfills(w: World, ms: seq<Move>)
    decreases |ms|
  {
    ms == [] || (!Overfills(w, ms[0].op, ms[0].now) && NeverOverfills(Next(w, ms[0]), ms[1..]))
  }

  /** Coordinated work is never claimed by a raw `claim_ready`. */
  ghost predicate Orderly(w: World, ms: seq<Move>)
    decreases |ms|
  {
    ms == []
    || ((ms[0].op.OfClaim? && ms[0].op.claim.ClaimReadyOp? ==> ms[0].op.claim.request.delegation !in w.coord.tasks)
        && Orderly(Next(w, ms[0]), ms[1..]))
  }

  lemma OrderlyMove(w: World, m: Move)
    requires WorldOk(w)
    requires m.op.OfClaim? && m.op.claim.ClaimReadyOp? ==> m.op.claim.request.delegation !in w.coord.tasks
    ensures !SkipsDependencies(w, m.op, m.now) && !Overfills(w, m.op, m.now)
  {
    if m.op.OfClaim? && m.op.claim.ClaimReadyOp? {
      forall e | e in w.coord.deps ensures e.0 != m.op.claim.request.delegation { assert Bound(w.coord, e); }
    }
  }

  /** The rule of the documentation is enough: work with a coordination task is claimed through coordination or the
      scheduler only. */
  lemma {:induction false} OrderlyIsEnough(w: World, ms: seq<Move>)
    requires WorldOk(w) && Orderly(w, ms)
    ensures NeverSkips(w, ms) && NeverOverfills(w, ms)
    decreases |ms|
  {
    if ms != [] {
      NextKeeps(w, ms[0]);
      OrderlyMove(w, ms[0]);
      OrderlyIsEnough(Next(w, ms[0]), ms[1..]);
    }
  }

  lemma {:induction false} ClosedAlong(w: World, ms: seq<Move>)
    requires WorldOk(w) && Closed(w.core, w.coord) && NeverSkips(w, ms)
    ensures WorldOk(After(w, ms)) && Closed(After(w, ms).core, After(w, ms).coord)
    decreases |ms|
  {
    if ms != [] {
      NextKeeps(w, ms[0]);
      if Step(w, ms[0].op, ms[0].now).Ok? { StepPlan(w, ms[0].op, ms[0].now); }
      ClosedAlong(Next(w, ms[0]), ms[1..]);
    }
  }

  lemma {:induction false} WithinAlong(w: World, ms: seq<Move>)
    requires WorldOk(w) && WithinLimits(w.core, w.coord) && NeverOverfills(w, ms)
    ensures WorldOk(After(w, ms)) && WithinLimits(After(w, ms).core, After(w, ms).coord)
    decreases |ms|
  {
    if ms != [] {
      NextKeeps(w, ms[0]);
      if Step(w, ms[0].op, ms[0].now).Ok? { StepPlan(w, ms[0].op, ms[0].now); }
      WithinAlong(Next(w, ms[0]), ms[1..]);
    }
  }

  // ---- Dependencies ----

  /** The dependency closure holds on every run up to the first raw claim that skips a dependency, and that one breaks it. */
  lemma ClosureUntilSkipped(ms: seq<Move>, m: Move)
    requires NeverSkips(Start(), ms)
    ensures var w := After(Start(), ms);
            && Closed(w.core, w.coord)
            && (Closed(Next(w, m).core, Next(w, m).coord) <==> !SkipsDependencies(w, m.op, m.now))
  {
    StartOk();
    ClosedAlong(Start(), ms);
    var w := After(Start(), ms);
    if Step(w, m.op, m.now).Ok? { StepPlan(w, m.op, m.now); }
  }

  /** Until then, a delegation that has ever been claimed had all its transitive dependencies completed, and they are
      completed ever after, whatever the run does later. */
  lemma ClaimedAfterDependencies(ms: seq<Move>, v: World, d: DelegationId, y: DelegationId)
    requires NeverSkips(Start(), ms) && Later(After(Start(), ms), v)
    requires HasClaimRow(After(Start(), ms).core, d) && Reaches(After(Start(), ms).coord.deps, d, y)
    ensures var c := After(Start(), ms).core; y in c.delegations && c.delegations[y].state == Completed
    ensures y in v.core.delegations && v.core.delegations[y].state == Completed
  {
    var w := After(Start(), ms);
    StartOk();
    ClosedAlong(Start(), ms);
    RunKeeps(w, v);
    DependencyClosure(w.core, w.coord, d, y);
    assert DelegationEvolves(w.core, v.core, y);
  }

  lemma DeadIsNoDependency(a: Core, c: Core, k: Coord, d: DelegationId, x: DelegationId)
    requires Consistent(c) && DelegationsEvolve(a, c) && Planned(c, k) && Closed(c, k)
    requires d in a.delegations && Dead(a.delegations[d].state) && Reaches(k.deps, x, d)
    ensures !HasClaimRow(c, x)
  {
    assert DelegationEvolves(a, c, d);
    if HasClaimRow(c, x) { DependencyClosure(c, k, x, d); }
  }

  lemma DeadBlocks(w: World, v: World, d: DelegationId, x: DelegationId)
    requires WorldOk(w) && Later(w, v) && Closed(v.core, v.coord)
    requires d in w.core.delegations && Dead(w.core.delegations[d].state) && Reaches(v.coord.deps, x, d)
    ensures !HasClaimRow(v.core, x)
  {
    RunKeeps(w, v);
    DeadIsNoDependency(w.core, v.core, v.coord, d, x);
  }

  /** Work that depends on a dead delegation, whenever it was bound, never gets a claim. */
  lemma NothingPastTheDead(ms: seq<Move>, more: seq<Move>, d: DelegationId, x: DelegationId)
    requires NeverSkips(Start(), ms) && NeverSkips(After(Start(), ms), more)
    requires var c := After(Start(), ms).core; d in c.delegations && Dead(c.delegations[d].state)
    requires Reaches(After(After(Start(), ms), more).coord.deps, x, d)
    ensures !HasClaimRow(After(After(Start(), ms), more).core, x)
  {
    var w := After(Start(), ms);
    StartOk();
    ClosedAlong(Start(), ms);
    ClosedAlong(w, more);
    RunIsTrace(w, more);
    DeadBlocks(w, After(w, more), d, x);
  }

  // ---- Capacity ----

  /** No resource ever has more occupants than its limit up to the first raw claim on a full resource, and that one
      breaks the bound. */
  lemma CapacityUntilOverfilled(ms: seq<Move>, m: Move)
    requires NeverOverfills(Start(), ms)
    ensures var w := After(Start(), ms);
            && (forall r :: r in w.coord.limits ==> |Occupants(w.core, w.coord, r)| <= w.coord.limits[r] <= 64)
            && (WithinLimits(Next(w, m).core, Next(w, m).coord) <==> !Overfills(w, m.op, m.now))
  {
    StartOk();
    WithinAlong(Start(), ms);
    var w := After(Start(), ms);
    forall r | r in w.coord.limits ensures |Occupants(w.core, w.coord, r)| <= w.coord.limits[r] <= 64 {
      assert Fits(w.core, w.coord, r) && LimitSet(w.coord, r);
    }
    if Step(w, m.op, m.now).Ok? { StepPlan(w, m.op, m.now); }
  }

  // ---- The slot of a cancelled run ----

  /** The run of the dispatch was told to stop, and has not said that it did. */
  predicate Stopping(c: Core, d: DispatchId) { d in c.outbox && c.outbox[d].state == CancelRequested }

  /** The dispatch row is the same. */
  predicate SameRow(a: Core, b: Core, d: DispatchId)
    requires d in a.outbox
  {
    d in b.outbox && b.outbox[d] == a.outbox[d]
  }

  lemma LiveIsNotStopping(c: Core, l: LeaseId, d: DispatchId)
    requires Consistent(c) && l in c.claims && (Live(c.claims[l]) || c.claims[l].status == Validating) && Stopping(c, d)
    ensures c.claims[l].dispatch != d
  { assert ClaimOk(c, l); }

  lemma {:induction false} RecoverLiveStops(c: Core, rows: seq<LeaseId>, now: int, sla: int, d: DispatchId)
    requires Consistent(c) && Distinct(rows) && AllLive(c, rows) && Stopping(c, d)
    ensures SameRow(c, RecoverLive(c, rows, now, sla), d)
    decreases |rows|
  {
    if rows != [] {
      assert rows[0] in rows;
      LiveIsNotStopping(c, rows[0], d);
      RecoverOneSound(c, rows[0], now, sla);
      RecoverOneTail(c, rows, now, sla);
      RecoverLiveStops(RecoverOne(c, rows[0], now, sla), rows[1..], now, sla, d);
    }
  }

  lemma {:induction false} TimeoutAllStops(c: Core, rows: seq<LeaseId>, now: int, d: DispatchId)
    requires Consistent(c) && Distinct(rows) && AllWaiting(c, rows) && Stopping(c, d)
    ensures SameRow(c, TimeoutAll(c, rows, now), d)
    decreases |rows|
  {
    if rows != [] {
      var c1 := TimeoutOne(c, rows[0], now);
      assert rows[0] in rows;
      if rows[0] in c.claims { LiveIsNotStopping(c, rows[0], d); }
      TimeoutOneSafe(c, rows[0], now);
      TailRows(c, c1, rows);
      TimeoutAllStops(c1, rows[1..], now, d);
    }
  }

  lemma {:induction false} StaleAllWaitingStops(c: Core, rows: seq<LeaseId>, now: int, d: DispatchId)
    requires Stopping(c, d)
    ensures SameRow(c, StaleAllWaiting(c, rows, now), d)
    decreases |rows|
  {
    if rows != [] { StaleAllWaitingStops(StaleWaiting(c, rows[0], now), rows[1..], now, d); }
  }

  lemma InvalidateHeadStops(c: Core, lane: LaneId, head: nat, now: int, waiting: seq<LeaseId>, d: DispatchId)
    requires Consistent(c) && Stopping(c, d) && InvalidateHead(c, lane, head, now, waiting).Ok?
    ensures SameRow(c, InvalidateHead(c, lane, head, now, waiting).value, d)
  {
    if LaneBusy(c, lane) { LiveIsNotStopping(c, ActiveOn(c, lane), d); }
    StaleAllWaitingStops(DropActive(c, lane, now), waiting, now, d);
  }

  lemma CancelOneStops(c: Core, k: Coord, x: DelegationId, now: int, d: DispatchId)
    requires Consistent(c) && Stopping(c, d) && CancelOne(c, k, x, now).Ok?
    ensures SameRow(c, CancelOne(c, k, x, now).value.0, d)
  {
    if HasLive(c, x) { LiveIsNotStopping(c, LiveOf(c, x), d); }
  }

  lemma {:induction false} CancelAllStops(c: Core, k: Coord, rows: seq<DelegationId>, now: int, d: DispatchId)
    requires Consistent(c) && Planned(c, k) && Stopping(c, d)
    ensures CancelAll(c, k, rows, now).Ok? && SameRow(c, CancelAll(c, k, rows, now).value.0, d)
    decreases |rows|
  {
    if rows != [] {
      CancelOneKeeps(c, k, rows[0], now);
      CancelOneStops(c, k, rows[0], now, d);
      var one := CancelOne(c, k, rows[0], now).value;
      CancelAllStops(one.0, one.1, rows[1..], now, d);
    }
  }

  lemma {:induction false} RecoverLocalStops(
    c: Core, e: Exec, rows: seq<LeaseId>, kinds: set<nat>, ttl: int, now: int, sla: int, d: DispatchId)
    requires Consistent(c) && Executes(c, e) && Distinct(rows) && AllLive(c, rows) && Stopping(c, d)
    ensures RecoverLocalAll(c, e, rows, kinds, ttl, now, sla).Ok?
    ensures SameRow(c, RecoverLocalAll(c, e, rows, kinds, ttl, now, sla).value.0, d)
    decreases |rows|
  {
    if rows != [] {
      assert rows[0] in rows;
      LiveIsNotStopping(c, rows[0], d);
      RecoverLocalOneKeeps(c, e, rows[0], kinds, ttl, now, sla);
      RecoverLocalTail(c, e, rows, kinds, ttl, now, sla);
      var one := RecoverLocalOne(c, e, rows[0], kinds, ttl, now, sla).value;
      RecoverLocalStops(one.0, one.1, rows[1..], kinds, ttl, now, sla, d);
    }
  }

  lemma RecoverStops(c: Core, now: int, sla: int, live: seq<LeaseId>, waiting: seq<LeaseId>, d: DispatchId)
    requires Consistent(c) && Stopping(c, d) && Recover(c, now, sla, live, waiting).Ok?
    ensures SameRow(c, Recover(c, now, sla, live, waiting).value, d)
  {
    RecoverLiveSound(c, live, now, sla);
    RecoverLiveStops(c, live, now, sla, d);
    TimeoutAllStops(RecoverLive(c, live, now, sla), waiting, now, d);
  }

  lemma TerminalStops(c: Core, l: LeaseId, token: int, s: Status, payload: Doc, now: int, d: DispatchId)
    requires Consistent(c) && Stopping(c, d) && TerminalTx(c, l, token, s, payload, now).Ok?
    ensures SameRow(c, TerminalTx(c, l, token, s, payload, now).value, d)
  { if LeaseLive(c, l) { LiveIsNotStopping(c, l, d); } }

  lemma StoreStops(c: Core, op: StoreOp, now: int, d: DispatchId)
    requires Consistent(c) && Stopping(c, d) && CoreStep(c, op, now).Ok?
    ensures SameRow(c, CoreStep(c, op, now).value, d)
  {
    assert OutboxRowOk(c, d) && ClaimOk(c, c.outbox[d].lease);
    match op {
      case RegisterLaneOp(lane, owner, ref, head, waiting) =>
        if lane in c.lanes { InvalidateHeadStops(c, lane, head, now, waiting, d); }
      case InvalidateHeadOp(lane, head, waiting) => InvalidateHeadStops(c, lane, head, now, waiting, d);
      case RecoverOp(sla, live, waiting) => RecoverStops(c, now, sla, live, waiting, d);
      case AwaitEvaluationOp(l, token, digest, candidate, timeout) => if LeaseLive(c, l) { LiveIsNotStopping(c, l, d); }
      case TerminalOp(l, token, s, payload) => TerminalStops(c, l, token, s, payload, now, d);
      case _ =>
    }
  }

  lemma PlanStops(w: World, op: PlanOp, now: int, d: DispatchId)
    requires WorldOk(w) && Stopping(w.core, d) && PlanStep(w, op, now).Ok?
    requires !(op.AcknowledgeCancelOp? && op.dispatch == d)
    ensures SameRow(w.core, PlanStep(w, op, now).value.core, d)
  {
    var c := w.core;
    match op {
      case BindOp(h, k, waiting) =>
        if h.lane in c.lanes { InvalidateHeadStops(c, h.lane, h.head, now, waiting, d); }
      case RequestCancelOp(x, cascade, rows) => CancelAllStops(c, w.coord, [x] + rows, now, d);
      case _ =>
    }
  }

  lemma WorkerStops(w: World, op: WorkerOp, now: int, d: DispatchId)
    requires WorldOk(w) && Stopping(w.core, d) && WorkerStep(w, op, now).Ok?
    ensures SameRow(w.core, WorkerStep(w, op, now).value.core, d)
  {
    match op {
      case SealOp(t) => TerminalStops(w.core, t.lease, t.token, t.outcome, t.payload, now, d);
      case RecoverLocalOp(live, kinds, ttl, sla) => RecoverLocalStops(w.core, w.exec, live, kinds, ttl, now, sla, d);
      case _ =>
    }
  }

  lemma GrantedStops(w: World, x: DelegationId, v: World, d: DispatchId)
    requires Granted(w, x, v) && Stopping(w.core, d)
    ensures SameRow(w.core, v.core, d)
  {
    if v.core != w.core {
      var q: Request :| q.delegation == x && Grantable(w.core, q) && Fresh(w.core, q) && v.core == Grant(w.core, q);
    }
  }

  lemma ClaimStops(w: World, op: ClaimOp, now: int, d: DispatchId)
    requires WorldOk(w) && Stopping(w.core, d) && ClaimStep(w, op, now).Ok?
    ensures SameRow(w.core, ClaimStep(w, op, now).value.core, d)
  {
    ClaimStepKeeps(w, op, now);
    GrantedStops(w, TakenDelegation(op), ClaimStep(w, op, now).value, d);
  }

  /** The transaction is the acknowledgement of this dispatch by the run that the row names. */
  predicate Acknowledges(c: Core, m: Move, d: DispatchId)
    requires d in c.outbox
  {
    m.op.OfPlan? && m.op.plan.AcknowledgeCancelOp? && m.op.plan.dispatch == d && c.outbox[d].run == Some(m.op.plan.run)
  }

  /** A run that was told to stop leaves that state by its own acknowledgement, and by nothing else that any actor does. */
  lemma StopsUntilAcknowledged(w: World, m: Move, d: DispatchId)
    requires WorldOk(w) && Stopping(w.core, d)
    ensures d in Next(w, m).core.outbox && Next(w, m).core.outbox[d].run == w.core.outbox[d].run
    ensures Stopping(Next(w, m).core, d) <==> !Acknowledges(w.core, m, d)
    ensures Acknowledges(w.core, m, d) ==> Next(w, m).core.outbox[d].state == OutCancelled
  {
    if Step(w, m.op, m.now).Ok? {
      match m.op {
        case OfStore(o) => StoreStops(w.core, o, m.now, d);
        case OfClaim(o) => ClaimStops(w, o, m.now, d);
        case OfPlan(o) => if !(o.AcknowledgeCancelOp? && o.dispatch == d) { PlanStops(w, o, m.now, d); }
        case OfWorker(o) => WorkerStops(w, o, m.now, d);
      }
    }
  }

  ghost predicate NeverAcknowledged(w: World, ms: seq<Move>, d: DispatchId)
    decreases |ms|
  {
    ms == [] || (d in w.core.outbox && !Acknowledges(w.core, ms[0], d) && NeverAcknowledged(Next(w, ms[0]), ms[1..], d))
  }

  lemma {:induction false} StopsAlong(w: World, ms: seq<Move>, d: DispatchId)
    requires WorldOk(w) && Stopping(w.core, d) && NeverAcknowledged(w, ms, d)
    ensures WorldOk(After(w, ms)) && WorldMoves(w, After(w, ms)) && Stopping(After(w, ms).core, d)
    decreases |ms|
  {
    if ms == [] { SameStepOk(w); }
    else {
      NextKeeps(w, ms[0]);
      StopsUntilAcknowledged(w, ms[0], d);
      StopsAlong(Next(w, ms[0]), ms[1..], d);
      WorldMovesTwice(w, Next(w, ms[0]), After(w, ms));
    }
  }

  // ---- What a cancellation does to a run ----

  /** Cancelling other work leaves a live claim and its dispatch alone. */
  lemma CancelOneSpares(c: Core, k: Coord, x: DelegationId, now: int, l: LeaseId)
    requires Consistent(c) && Planned(c, k) && LeaseLive(c, l) && c.claims[l].delegation != x
    ensures CancelOne(c, k, x, now).Ok?
    ensures var b := CancelOne(c, k, x, now).value.0;
            && l in b.claims && b.claims[l] == c.claims[l] && c.claims[l].dispatch in c.outbox
            && SameRow(c, b, c.claims[l].dispatch)
  {
    assert x in k.tasks ==> TaskOk(c, k, x);
    assert ClaimOk(c, l);
    if HasLive(c, x) { assert ClaimOk(c, LiveOf(c, x)); }
  }

  /** Cancelling the work itself tells a dispatched run to stop, and withdraws a dispatch that was never taken up. */
  lemma CancelOneStopsRun(c: Core, k: Coord, now: int, l: LeaseId)
    requires Consistent(c) && Planned(c, k) && LeaseLive(c, l) && c.claims[l].delegation in k.tasks
    ensures CancelOne(c, k, c.claims[l].delegation, now).Ok?
    ensures var b := CancelOne(c, k, c.claims[l].delegation, now).value.0;
            var d := c.claims[l].dispatch;
            && d in c.outbox && d in b.outbox && b.outbox[d].run == c.outbox[d].run
            && b.outbox[d].state == (if c.outbox[d].run.Some? then CancelRequested else OutCancelled)
  {
    var x := c.claims[l].delegation;
    CancelOneKeeps(c, k, x, now);
    assert ClaimOk(c, l) && TaskOk(c, k, x);
    assert HasLive(c, x) && LiveOf(c, x) == l;
  }

  lemma {:induction false} CancelAllStopsRun(c: Core, k: Coord, rows: seq<DelegationId>, now: int, l: LeaseId)
    requires Consistent(c) && Planned(c, k) && LeaseLive(c, l) && c.claims[l].delegation in k.tasks
    requires c.claims[l].delegation in rows && c.claims[l].dispatch in c.outbox && c.outbox[c.claims[l].dispatch].run.Some?
    ensures CancelAll(c, k, rows, now).Ok?
    ensures Stopping(CancelAll(c, k, rows, now).value.0, c.claims[l].dispatch)
    decreases |rows|
  {
    var x, d := c.claims[l].delegation, c.claims[l].dispatch;
    CancelOneKeeps(c, k, rows[0], now);
    var one := CancelOne(c, k, rows[0], now).value;
    if rows[0] == x {
      CancelOneStopsRun(c, k, now, l);
      CancelAllStops(one.0, one.1, rows[1..], now, d);
    } else {
      CancelOneSpares(c, k, rows[0], now, l);
      CancelAllStopsRun(one.0, one.1, rows[1..], now, l);
    }
  }

  lemma StoppingOccupies(w: World, v: World, l: LeaseId)
    requires WorldOk(w) && WorldOk(v) && WorldMoves(w, v) && l in w.core.claims && w.core.claims[l].delegation in w.coord.tasks
    requires Stopping(v.core, w.core.claims[l].dispatch)
    ensures l in v.core.claims && !Live(v.core.claims[l])
    ensures l in Occupants(v.core, v.coord, w.coord.tasks[w.core.claims[l].delegation].resource)
  {
    assert ClaimEvolves(w.core, v.core, l) && ClaimOk(v.core, l);
    assert TaskMoves(w.coord.tasks[w.core.claims[l].delegation], v.coord.tasks[w.core.claims[l].delegation]);
  }

  lemma StoppedKeepsSlot(w: World, u: World, ms: seq<Move>, l: LeaseId)
    requires WorldOk(w) && WorldOk(u) && WorldMoves(w, u)
    requires l in w.core.claims && w.core.claims[l].delegation in w.coord.tasks
    requires Stopping(u.core, w.core.claims[l].dispatch) && NeverAcknowledged(u, ms, w.core.claims[l].dispatch)
    ensures var v := After(u, ms);
            && l in v.core.claims && !Live(v.core.claims[l])
            && l in Occupants(v.core, v.coord, w.coord.tasks[w.core.claims[l].delegation].resource)
  {
    StopsAlong(u, ms, w.core.claims[l].dispatch);
    WorldMovesTwice(w, u, After(u, ms));
    StoppingOccupies(w, After(u, ms), l);
  }

  /** A cancelled run that was dispatched keeps its slot until its end is acknowledged: after a cancellation that reaches
      its delegation, and in every later state before the acknowledgement, its claim still occupies the resource. */
  lemma CancelledRunKeepsSlot(
    w: World, x: DelegationId, cascade: Option<bool>, rows: seq<DelegationId>, now: int, l: LeaseId, ms: seq<Move>)
    requires Reachable(w) && RequestCancel(w.core, w.coord, x, cascade, rows, now).Ok?
    requires LeaseLive(w.core, l) && w.core.claims[l].dispatch in w.core.outbox
    requires w.core.outbox[w.core.claims[l].dispatch].run.Some?
    requires w.core.claims[l].delegation == x || (w.coord.tasks[x].cascade && Reaches(w.coord.deps, w.core.claims[l].delegation, x))
    requires NeverAcknowledged(Next(w, Move(OfPlan(RequestCancelOp(x, cascade, rows)), now)), ms, w.core.claims[l].dispatch)
    ensures w.core.claims[l].delegation in w.coord.tasks
    ensures var v := After(Next(w, Move(OfPlan(RequestCancelOp(x, cascade, rows)), now)), ms);
            && l in v.core.claims && !Live(v.core.claims[l])
            && l in Occupants(v.core, v.coord, w.coord.tasks[w.core.claims[l].delegation].resource)
  {
    ReachableOk(w);
    CancelReaches(w.core, w.coord, x, cascade, rows, now, w.core.claims[l].delegation);
    CancelAllStopsRun(w.core, w.coord, [x] + rows, now, l);
    var u := CancelMove(w, x, cascade, rows, now);
    StoppedKeepsSlot(w, u, ms, l);
  }
}
