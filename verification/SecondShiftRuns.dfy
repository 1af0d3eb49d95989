/** Whole runs of the Second Shift system: the promises that hold in every reachable state and between any two
    states of a run, for every interleaving of the actors. */
module SecondShiftRuns {
  import opened Wrappers
  import opened Tables
  import opened DependencyGraph
  import opened SupervisorSpec
  import opened SupervisorInvariants
  import opened SupervisorSafety
  import opened EvaluationSafety
  import opened FailureSafety
  import opened ValidationGuard
  import opened StoreSteps
  import opened CoordinationSpec
  import opened CoordinationSafety
  import opened NightSpec
  import opened NightSafety
  import opened ExecutionSpec
  import opened ExecutionSafety
  import opened LeaseRecovery
  import opened ExecutionEffects
  import opened SecondShift

  /** One transaction of one actor, at one instant. */
  datatype Move = Move(op: Op, now: int)

  /** A transaction that fails is rolled back. */
  ghost function Next(w: World, m: Move): World {
    var r := Step(w, m.op, m.now);
    if r.Ok? then r.value else w
  }

  function Start(): World {
    World(Core(map[], map[], map[], map[], []), Coord(map[], {}, map[]), Night(map[], map[], map[], {}),
          Exec(map[], map[]), {}, {}, {})
  }

  ghost predicate StepAt(ws: seq<World>, i: nat)
    requires i + 1 < |ws|
  {
    exists m: Move :: ws[i + 1] == Next(ws[i], m)
  }

  /** The worlds of a run, each reached from the one before by a transaction. */
  ghost predicate Trace(ws: seq<World>) {
    ws != [] && forall i: nat {:trigger StepAt(ws, i)} :: i + 1 < |ws| ==> StepAt(ws, i)
  }

  ghost predicate Later(w: World, v: World) { exists ws :: Trace(ws) && ws[0] == w && ws[|ws| - 1] == v }

  ghost predicate Reachable(w: World) { Later(Start(), w) }

  // ---- A run as the transactions that are tried one after another ----

  ghost function After(w: World, ms: seq<Move>): World
    decreases |ms|
  {
    if ms == [] then w else After(Next(w, ms[0]), ms[1..])
  }

  lemma {:induction false} AfterOne(w: World, ms: seq<Move>, m: Move)
    ensures After(w, ms + [m]) == Next(After(w, ms), m)
    decreases |ms|
  {
    if ms == [] { assert (ms + [m])[1..] == []; }
    else {
      assert (ms + [m])[1..] == ms[1..] + [m];
      AfterOne(Next(w, ms[0]), ms[1..], m);
    }
  }

  /** The worlds that a list of transactions leads through. */
  ghost function WorldsOf(w: World, ms: seq<Move>): (ws: seq<World>)
    ensures ws != [] && ws[0] == w
    decreases |ms|
  {
    if ms == [] then [w] else [w] + WorldsOf(Next(w, ms[0]), ms[1..])
  }

  lemma TraceExtends(w: World, m: Move, vs: seq<World>)
    requires Trace(vs) && vs[0] == Next(w, m)
    ensures Trace([w] + vs)
  {
    var ws := [w] + vs;
    forall i: nat | i + 1 < |ws| ensures StepAt(ws, i) {
      if i == 0 { assert ws[0 + 1] == Next(ws[0], m); }
      else {
        assert StepAt(vs, i - 1);
        assert ws[i] == vs[i - 1] && ws[i + 1] == vs[i - 1 + 1];
      }
    }
  }

  lemma {:induction false} RunIsTrace(w: World, ms: seq<Move>)
    ensures Trace(WorldsOf(w, ms)) && WorldsOf(w, ms)[|WorldsOf(w, ms)| - 1] == After(w, ms)
    ensures Later(w, After(w, ms))
    decreases |ms|
  {
    if ms != [] {
      RunIsTrace(Next(w, ms[0]), ms[1..]);
      TraceExtends(w, ms[0], WorldsOf(Next(w, ms[0]), ms[1..]));
    }
  }

  // ---- Runs keep the promises of single steps ----

  lemma StartOk()
    ensures WorldOk(Start()) && Guarded(Start().core)
  {
    forall x ensures !Reaches({}, x, x) {
      if Reaches({}, x, x) { var m := FirstEdge({}, x, x); }
    }
  }

  lemma NextKeeps(w: World, m: Move)
    requires WorldOk(w)
    ensures WorldOk(Next(w, m)) && WorldMoves(w, Next(w, m))
  {
    if Step(w, m.op, m.now).Ok? { StepKeeps(w, m.op, m.now); } else { SameStepOk(w); }
  }

  lemma PlanMovesTwice(u: Coord, v: Coord, w: Coord)
    requires PlanMoves(u, v) && PlanMoves(v, w)
    ensures PlanMoves(u, w)
  { }

  lemma WorldMovesTwice(u: World, v: World, w: World)
    requires WorldOk(u) && WorldOk(v) && WorldMoves(u, v) && WorldMoves(v, w)
    ensures WorldMoves(u, w)
  {
    EvolvesTransitive(u.core, v.core, w.core);
    ExecMovesTransitive(u.exec, v.exec, w.exec);
    PlanMovesTwice(u.coord, v.coord, w.coord);
  }

  lemma StepAtKeeps(u: World, ws: seq<World>, i: nat)
    requires i + 1 < |ws| && StepAt(ws, i) && WorldOk(u) && WorldOk(ws[i]) && WorldMoves(u, ws[i])
    ensures WorldOk(ws[i + 1]) && WorldMoves(u, ws[i + 1])
  {
    var m: Move :| ws[i + 1] == Next(ws[i], m);
    NextKeeps(ws[i], m);
    WorldMovesTwice(u, ws[i], ws[i + 1]);
  }

  lemma TraceKeeps(ws: seq<World>, n: nat)
    requires Trace(ws) && n < |ws| && WorldOk(ws[0])
    ensures WorldOk(ws[n]) && WorldMoves(ws[0], ws[n])
  {
    SameStepOk(ws[0]);
    for i := 0 to n
      invariant WorldOk(ws[i]) && WorldMoves(ws[0], ws[i])
    {
      assert StepAt(ws, i);
      StepAtKeeps(ws[0], ws, i);
    }
  }

  lemma RunKeeps(w: World, v: World)
    requires WorldOk(w) && Later(w, v)
    ensures WorldOk(v) && WorldMoves(w, v)
  {
    var ws :| Trace(ws) && ws[0] == w && ws[|ws| - 1] == v;
    TraceKeeps(ws, |ws| - 1);
  }

  lemma ReachableOk(w: World)
    requires Reachable(w)
    ensures WorldOk(w)
  {
    StartOk();
    RunKeeps(Start(), w);
  }

  /** Between two states of a run every row has only moved forward. */
  lemma LaterMoves(w: World, v: World)
    requires Reachable(w) && Later(w, v)
    ensures WorldOk(w) && WorldOk(v) && WorldMoves(w, v)
  {
    ReachableOk(w);
    RunKeeps(w, v);
  }

  // ---- Fencing ----

  lemma AuthorityIsLost(a: Core, b: Core, c: Core, lease: LeaseId, token: int)
    requires Consistent(a) && Consistent(b) && Evolves(a, b) && Evolves(b, c)
    requires Authority(a, lease, token) && !Authority(b, lease, token)
    ensures !Authority(c, lease, token)
  {
    var lane := a.claims[lease].lane;
    assert ClaimEvolves(a, b, lease) && LaneEvolves(a, b, lane);
    assert ClaimEvolves(b, c, lease) && LaneEvolves(b, c, lane);
  }

  /** A lease and fence that have lost their authority never get it back. */
  lemma FencedForEver(u: World, w: World, v: World, lease: LeaseId, token: int)
    requires Reachable(u) && Later(u, w) && Later(w, v)
    requires Authority(u.core, lease, token) && !Authority(w.core, lease, token)
    ensures !Authority(v.core, lease, token)
  {
    LaterMoves(u, w);
    LaterMovesOn(u, w, v);
    AuthorityIsLost(u.core, w.core, v.core, lease, token);
  }

  lemma LaterMovesOn(u: World, w: World, v: World)
    requires Reachable(u) && Later(u, w) && Later(w, v)
    ensures WorldOk(w) && WorldOk(v) && WorldMoves(w, v)
  {
    LaterMoves(u, w);
    RunKeeps(w, v);
  }

  /** At most one lease and fence can act on a lane. */
  lemma OneAuthorityPerLane(w: World, l: LeaseId, s: int, m: LeaseId, t: int)
    requires Reachable(w) && Authority(w.core, l, s) && Authority(w.core, m, t)
    requires w.core.claims[l].lane == w.core.claims[m].lane
    ensures l == m && s == t
  { ReachableOk(w); }

  /** Fences on a lane only grow: a lease that appears later, and a fence that a lease gets later, lies above every
      fence that was issued on the lane before. */
  lemma FencesIncrease(w: World, v: World, l: LeaseId, m: LeaseId)
    requires Reachable(w) && Later(w, v)
    requires l in w.core.claims && m in v.core.claims && v.core.claims[m].lane == w.core.claims[l].lane
    requires m !in w.core.claims || v.core.claims[m].token != w.core.claims[m].token
    ensures var lane := w.core.claims[l].lane;
            && lane in w.core.lanes && lane in v.core.lanes
            && w.core.claims[l].token <= w.core.lanes[lane].fence < v.core.claims[m].token <= v.core.lanes[lane].fence
  {
    LaterMoves(w, v);
    assert ClaimOk(w.core, l) && ClaimOk(v.core, m);
    if m in w.core.claims { assert ClaimEvolves(w.core, v.core, m); } else { assert ClaimAppears(w.core, v.core, m); }
  }

  /** So does the counter of the lane: it never falls, and it grows with every change of the control head and with every
      cancellation of a live lease. */
  lemma CounterIncreases(w: World, v: World, x: LaneId, l: LeaseId)
    requires Reachable(w) && Later(w, v) && x in w.core.lanes
    ensures x in v.core.lanes && w.core.lanes[x].fence <= v.core.lanes[x].fence
    ensures v.core.lanes[x].head != w.core.lanes[x].head ==> w.core.lanes[x].fence < v.core.lanes[x].fence
    ensures (LeaseLive(w.core, l) && w.core.claims[l].lane == x && l in v.core.claims && v.core.claims[l].status == Cancelled) ==>
              w.core.lanes[x].fence < v.core.lanes[x].fence
  {
    LaterMoves(w, v);
    assert LaneEvolves(w.core, v.core, x);
    if LeaseLive(w.core, l) { assert ClaimEvolves(w.core, v.core, l); }
  }

  /** And with every lease that a recovery ends: expired ones, and those whose evaluation timed out. */
  lemma RecoveryRaisesCounter(w: World, m: Move, l: LeaseId)
    requires Reachable(w) && IsRecover(m.op) && Step(w, m.op, m.now).Ok? && l in w.core.claims
    ensures var x, c := w.core.claims[l].lane, Next(w, m).core;
            && x in w.core.lanes && x in c.lanes && l in c.claims
            && (c.claims[l].status != w.core.claims[l].status ==> w.core.lanes[x].fence < c.lanes[x].fence)
  {
    ReachableOk(w);
    assert ClaimOk(w.core, l);
    var op := m.op.store;
    RecoverFences(w.core, m.now, op.sla, op.live, op.waiting, l);
    assert Next(w, m).core == Recover(w.core, m.now, op.sla, op.live, op.waiting).value;
  }

  // ---- Dependencies and cancellation ----

  lemma PlanStaysSound(c: Core, k: Coord, k': Coord, r: nat, d: DelegationId)
    requires Planned(c, k) && PlanMoves(k, k')
    ensures r in k.limits ==> 1 <= k.limits[r] <= 64 && r in k'.limits && k'.limits[r] == k.limits[r]
    ensures d in k.tasks ==>
              && d in k'.tasks && DepsOf(k'.deps, d) == DepsOf(k.deps, d)
              && k'.tasks[d].resource == k.tasks[d].resource && k.tasks[d].resource in k.limits
              && k.limits[k.tasks[d].resource] == k.tasks[d].limit == k'.tasks[d].limit
  {
    if r in k.limits { assert LimitSet(k, r); }
    if d in k.tasks { assert TaskOk(c, k, d) && TaskMoves(k.tasks[d], k'.tasks[d]); }
  }

  /** The stored graph is acyclic and of one identity in every reachable state; dependencies, tasks and limits stay, and
      every task keeps the fixed limit of its resource. */
  lemma GraphStaysSound(w: World, v: World, r: nat, d: DelegationId)
    requires Reachable(w) && Later(w, v)
    ensures !Cyclic(w.coord.deps) && !Mismatched(w.coord) && w.coord.deps <= v.coord.deps
    ensures r in w.coord.limits ==>
              1 <= w.coord.limits[r] <= 64 && r in v.coord.limits && v.coord.limits[r] == w.coord.limits[r]
    ensures d in w.coord.tasks ==>
              && d in v.coord.tasks && DepsOf(v.coord.deps, d) == DepsOf(w.coord.deps, d)
              && v.coord.tasks[d].resource == w.coord.tasks[d].resource
              && w.coord.tasks[d].resource in w.coord.limits
              && w.coord.limits[w.coord.tasks[d].resource] == w.coord.tasks[d].limit == v.coord.tasks[d].limit
  {
    LaterMoves(w, v);
    PlanStaysSound(w.core, w.coord, v.coord, r, d);
  }

  /** No cancelled task has a live claim, now or later. */
  lemma CancelledHasNoLease(w: World, v: World, d: DelegationId)
    requires Reachable(w) && Later(w, v) && d in w.coord.tasks && w.coord.tasks[d].cancelled
    ensures !HasLive(v.core, d)
  {
    LaterMoves(w, v);
    assert TaskOk(w.core, w.coord, d);
    DeadForEver(w.core, v.core, d);
  }

  /** A delegation is claimed at most once in its life. */
  lemma ClaimedAtMostOnce(w: World, v: World, l: LeaseId, m: LeaseId)
    requires Reachable(w) && Later(w, v) && l in w.core.claims && m in v.core.claims
    requires v.core.claims[m].delegation == w.core.claims[l].delegation
    ensures l == m
  {
    LaterMoves(w, v);
    ClaimedOnce(w.core, v.core, l, m);
  }

  /** COMPLETED is for ever, and so is the end of a delegation in any other way. */
  lemma DelegationsSettle(w: World, v: World, d: DelegationId)
    requires Reachable(w) && Later(w, v) && d in w.core.delegations
    ensures d in v.core.delegations
    ensures w.core.delegations[d].state == Completed ==> v.core.delegations[d].state == Completed
    ensures Dead(w.core.delegations[d].state) ==> Dead(v.core.delegations[d].state) && !HasLive(v.core, d)
  {
    LaterMoves(w, v);
    assert DelegationEvolves(w.core, v.core, d);
    if Dead(w.core.delegations[d].state) { DeadForEver(w.core, v.core, d); }
  }

  lemma CancelMove(w: World, d: DelegationId, cascade: Option<bool>, rows: seq<DelegationId>, now: int) returns (u: World)
    requires WorldOk(w) && RequestCancel(w.core, w.coord, d, cascade, rows, now).Ok?
    ensures u == Next(w, Move(OfPlan(RequestCancelOp(d, cascade, rows)), now)) && WorldOk(u) && WorldMoves(w, u)
    ensures u.core == RequestCancel(w.core, w.coord, d, cascade, rows, now).value.0
  {
    var m := Move(OfPlan(RequestCancelOp(d, cascade, rows)), now);
    u := Next(w, m);
    NextKeeps(w, m);
  }

  /** The answer of a cascading cancellation is for ever: whatever depended on the root and was not completed has no
      live claim, is never completed and never claimed in any later state. */
  lemma CancelledForEver(
    w: World, d: DelegationId, cascade: Option<bool>, rows: seq<DelegationId>, now: int, v: World, x: DelegationId)
    requires Reachable(w) && RequestCancel(w.core, w.coord, d, cascade, rows, now).Ok?
    requires Later(Next(w, Move(OfPlan(RequestCancelOp(d, cascade, rows)), now)), v)
    requires x == d || (w.coord.tasks[d].cascade && Reaches(w.coord.deps, x, d))
    requires x in w.core.delegations && w.core.delegations[x].state != Completed
    ensures x in v.core.delegations && Dead(v.core.delegations[x].state) && !HasLive(v.core, x)
    ensures forall l :: l in v.core.claims && v.core.claims[l].delegation == x ==> l in w.core.claims
  {
    ReachableOk(w);
    CancelKills(w, d, cascade, rows, now, x);
    var u := CancelMove(w, d, cascade, rows, now);
    DeadStay(u, v, x);
  }

  lemma DeadStay(u: World, v: World, x: DelegationId)
    requires WorldOk(u) && Later(u, v) && x in u.core.delegations && Dead(u.core.delegations[x].state)
    ensures x in v.core.delegations && Dead(v.core.delegations[x].state) && !HasLive(v.core, x)
    ensures forall l :: l in v.core.claims && v.core.claims[l].delegation == x ==> l in u.core.claims
  {
    RunKeeps(u, v);
    DeadForEver(u.core, v.core, x);
  }

  lemma CancelKills(w: World, d: DelegationId, cascade: Option<bool>, rows: seq<DelegationId>, now: int, x: DelegationId)
    requires WorldOk(w) && RequestCancel(w.core, w.coord, d, cascade, rows, now).Ok?
    requires x == d || (w.coord.tasks[d].cascade && Reaches(w.coord.deps, x, d))
    requires x in w.core.delegations && w.core.delegations[x].state != Completed
    ensures var c := RequestCancel(w.core, w.coord, d, cascade, rows, now).value.0;
            c.claims.Keys == w.core.claims.Keys && x in c.delegations && Dead(c.delegations[x].state)
  {
    RequestCancelKeeps(w.core, w.coord, d, cascade, rows, now);
    CascadeKills(w.core, w.coord, d, cascade, rows, now, x);
  }

  // ---- The night budget ----

  /** The slots of a night in use are exactly 1..used, at most 64, one for each lease and delegation; the accounting
      check cannot fail and no authorization outlives its transaction. */
  lemma SlotsConserved(w: World, night: nat, limit: int)
    requires Reachable(w)
    ensures w.night.auths == {} && !Miscounted(w.night, night, limit)
    ensures night in w.night.budgets ==>
              && 0 <= w.night.budgets[night].used <= w.night.budgets[night].limit <= 64
              && forall s: int :: (night, s) in w.night.usage <==> 1 <= s <= w.night.budgets[night].used
    ensures forall u, v :: u in w.night.usage && v in w.night.usage && u != v ==>
              && w.night.usage[u].lease != w.night.usage[v].lease
              && w.night.usage[u].delegation != w.night.usage[v].delegation
  {
    ReachableOk(w);
    NeverMiscounted(w.core, w.night, night, limit);
    if night in w.night.budgets { assert BudgetOk(w.night, night); }
    forall u, v | u in w.night.usage && v in w.night.usage && u != v
      ensures w.night.usage[u].lease != w.night.usage[v].lease && w.night.usage[u].delegation != w.night.usage[v].delegation
    {
      assert !SameLease(w.night, u, v);
      assert UsageOk(w.core, w.night, u) && UsageOk(w.core, w.night, v);
    }
  }

  /** A slot for new work is refused exactly when the night is full or was opened with another limit. */
  lemma SlotRefusedExactly(w: World, q: Request, night: nat, limit: int)
    requires Reachable(w) && Grantable(w.core, q) && Fresh(w.core, q)
    ensures ReserveSlot(w.night, night, limit, Usage(q.delegation, q.lease)).Ok? <==>
              BudgetOf(w.night, night, limit).limit == limit && BudgetOf(w.night, night, limit).used < limit
  {
    ReachableOk(w);
    ReserveExactly(w.core, w.night, q, night, limit);
  }

  /** A slot is booked for the lease. */
  ghost predicate Booked(n: Night, u: (nat, int), l: LeaseId, d: DelegationId) {
    u in n.usage && n.usage[u] == Usage(d, l)
  }

  lemma NightGrantBooks(
    c: Core, p: Coord, n: Night, h: Handoff, k: Contract, shiftOpen: bool, nightKey: nat, limit: int, now: int, ttl: int,
    lease: LeaseId, dispatch: DispatchId, l: LeaseId)
    requires NightClaim(c, p, n, h, k, shiftOpen, nightKey, limit, now, ttl, lease, dispatch).Ok? && n.auths == {}
    requires var r := NightClaim(c, p, n, h, k, shiftOpen, nightKey, limit, now, ttl, lease, dispatch).value.0;
             l in r.claims && l !in c.claims
    ensures var r := NightClaim(c, p, n, h, k, shiftOpen, nightKey, limit, now, ttl, lease, dispatch).value;
            var u := (nightKey, BudgetOf(n, nightKey, limit).used + 1);
            u !in n.usage && Booked(r.1, u, l, r.0.claims[l].delegation)
  { NightClaimOutcome(c, p, n, h, k, shiftOpen, nightKey, limit, now, ttl, lease, dispatch); }

  lemma ScheduledGrantBooks(w: World, op: ClaimOp, now: int, l: LeaseId) returns (u: (nat, int))
    requires WorldOk(w) && op.NightClaimOp? && ClaimStep(w, op, now).Ok?
    requires l in ClaimStep(w, op, now).value.core.claims && l !in w.core.claims
    ensures var v := ClaimStep(w, op, now).value; u !in w.night.usage && Booked(v.night, u, l, v.core.claims[l].delegation)
  {
    match op {
      case NightClaimOp(h, k, shiftOpen, nightKey, limit, ttl, lease, d) =>
        NightGrantBooks(w.core, w.coord, w.night, h, k, shiftOpen, nightKey, limit, now, ttl, lease, d, l);
        u := (nightKey, BudgetOf(w.night, nightKey, limit).used + 1);
    }
  }

  lemma StoreGrantsNothing(c: Core, op: StoreOp, now: int)
    requires Consistent(c) && CoreStep(c, op, now).Ok?
    ensures CoreStep(c, op, now).value.claims.Keys == c.claims.Keys
  {
    if op.RecoverOp? { RecoverSafe(c, now, op.sla, op.live, op.waiting); } else { CoreStepSound(c, op, now); }
  }

  lemma PlanGrantsNothing(w: World, op: PlanOp, now: int)
    requires WorldOk(w) && PlanStep(w, op, now).Ok?
    ensures PlanStep(w, op, now).value.core.claims.Keys == w.core.claims.Keys
  {
    match op {
      case BindOp(h, k, waiting) => BindKeeps(w.core, w.coord, h, k, now, waiting);
      case RequestCancelOp(d, cascade, rows) => RequestCancelKeeps(w.core, w.coord, d, cascade, rows, now);
      case _ =>
    }
  }

  lemma WorkerGrantsNothing(w: World, op: WorkerOp, now: int)
    requires WorldOk(w) && WorkerStep(w, op, now).Ok?
    ensures WorkerStep(w, op, now).value.core.claims.Keys == w.core.claims.Keys
  {
    match op {
      case RecoverLocalOp(live, kinds, ttl, sla) => RecoverLocalKeeps(w.core, w.exec, live, kinds, ttl, now, sla);
      case SealOp(t) => TerminalSound(w.core, t.lease, t.token, t.outcome, t.payload, now);
      case RenewExecutionOp(x, ttl) =>
        BeatSound(w.core, w.core.outbox[x.dispatch].lease, x.token, Some(now + ttl), LeaseRenewed, now);
      case _ =>
    }
  }

  lemma OthersGrantNothing(w: World, op: Op, now: int)
    requires WorldOk(w) && !op.OfClaim? && Step(w, op, now).Ok?
    ensures Step(w, op, now).value.core.claims.Keys == w.core.claims.Keys
  {
    match op {
      case OfStore(o) => StoreGrantsNothing(w.core, o, now);
      case OfPlan(o) => PlanGrantsNothing(w, o, now);
      case OfWorker(o) => WorkerGrantsNothing(w, o, now);
    }
  }

  lemma QueuedClaimIsScheduled(w: World, op: ClaimOp, now: int, l: LeaseId)
    requires ClaimStep(w, op, now).Ok? && l in ClaimStep(w, op, now).value.core.claims && l !in w.core.claims
    requires ClaimStep(w, op, now).value.core.claims[l].delegation in w.night.queue
    ensures op.NightClaimOp?
  { }

  /** A claim on a queued delegation comes from the night scheduler. */
  lemma OnlyClaimsGrant(w: World, op: Op, now: int, l: LeaseId)
    requires WorldOk(w) && Step(w, op, now).Ok? && l in Step(w, op, now).value.core.claims && l !in w.core.claims
    requires Step(w, op, now).value.core.claims[l].delegation in w.night.queue
    ensures op.OfClaim? && op.claim.NightClaimOp?
  {
    if op.OfClaim? { QueuedClaimIsScheduled(w, op.claim, now, l); } else { OthersGrantNothing(w, op, now); }
  }

  lemma QueuedGrantBooks(w: World, m: Move, l: LeaseId) returns (u: (nat, int))
    requires WorldOk(w) && l in Next(w, m).core.claims && l !in w.core.claims
    requires Next(w, m).core.claims[l].delegation in w.night.queue
    ensures u !in w.night.usage && Booked(Next(w, m).night, u, l, Next(w, m).core.claims[l].delegation)
  {
    OnlyClaimsGrant(w, m.op, m.now, l);
    u := ScheduledGrantBooks(w, m.op.claim, m.now, l);
  }

  /** Every claim that was inserted while its delegation was queued booked exactly one slot, for ever. */
  lemma QueuedClaimsPayOnce(w: World, m: Move, l: LeaseId, v: World)
    requires Reachable(w) && l in Next(w, m).core.claims && l !in w.core.claims
    requires Next(w, m).core.claims[l].delegation in w.night.queue && Later(Next(w, m), v)
    ensures exists u :: u !in w.night.usage && Booked(v.night, u, l, Next(w, m).core.claims[l].delegation)
                        && forall x :: x in v.night.usage && v.night.usage[x].lease == l ==> x == u
  {
    ReachableOk(w);
    NextKeeps(w, m);
    var u := QueuedGrantBooks(w, m, l);
    RunKeeps(Next(w, m), v);
    assert Booked(v.night, u, l, Next(w, m).core.claims[l].delegation);
    forall x | x in v.night.usage && v.night.usage[x].lease == l ensures x == u { assert SameLease(v.night, x, u); }
  }

  // ---- Evaluation and failure accounting ----

  /** Work that needs an evaluation is completed only with a certificate in the log, which stays there; and a verdict
      id takes effect once. */
  lemma CompletedIsCertified(w: World, d: DelegationId, j: nat, k: nat)
    requires Reachable(w)
    ensures (d in w.core.delegations && w.core.delegations[d].evaluated && w.core.delegations[d].state == Completed) ==>
              Certified(w.core, d)
    ensures (j < |w.core.events| && k < |w.core.events| && IsVerdict(w.core.events[j]) && IsVerdict(w.core.events[k])
             && w.core.events[j].doc.id == w.core.events[k].doc.id) ==> j == k
  {
    ReachableOk(w);
    if d in w.core.delegations { assert EvaluatedOk(w.core, d); }
    if j < |w.core.events| && k < |w.core.events| { assert VerdictsDiffer(w.core, j, k); }
  }

  /** The attempt counter of a dispatch is the number of accepted failures, which all have different ids, plus one if
      a run was acknowledged; never more than three failures are accepted, and the counter is never above four. */
  lemma AttemptsAccounted(w: World, d: DispatchId, j: nat, k: nat)
    requires Reachable(w) && d in w.core.outbox
    ensures w.core.outbox[d].attempt == Failures(w.core.events, d) + (if w.core.outbox[d].run.Some? then 1 else 0)
    ensures Failures(w.core.events, d) <= 3 && w.core.outbox[d].attempt <= 4
    ensures (j < |w.core.events| && k < |w.core.events| && FailureOf(w.core.events[j], d) && FailureOf(w.core.events[k], d)
             && w.core.events[j].doc.failure == w.core.events[k].doc.failure) ==> j == k
  {
    ReachableOk(w);
    assert AccountOk(w.core, d);
    if j < |w.core.events| && k < |w.core.events| { assert FailuresDiffer(w.core, j, k); }
  }

  lemma FailureMove(w: World, d: DispatchId, error: nat, budget: int, failure: nat, now: int) returns (u: World)
    requires WorldOk(w) && DispatchFailed(w.core, d, error, budget, failure, now).Ok?
    ensures u == Next(w, Move(OfStore(DispatchFailedOp(d, error, budget, failure)), now)) && WorldOk(u)
    ensures u.core == DispatchFailed(w.core, d, error, budget, failure, now).value.0
  {
    var m := Move(OfStore(DispatchFailedOp(d, error, budget, failure)), now);
    u := Next(w, m);
    NextKeeps(w, m);
  }

  /** Whatever happens after a failure was accepted, even a dispatch, its replay changes nothing and gets the first answer. */
  lemma ReplayedFailure(w: World, d: DispatchId, error: nat, budget: int, failure: nat, now: int, v: World, later: int)
    requires Reachable(w) && DispatchFailed(w.core, d, error, budget, failure, now).Ok?
    requires Later(Next(w, Move(OfStore(DispatchFailedOp(d, error, budget, failure)), now)), v)
    ensures DispatchFailed(v.core, d, error, budget, failure, later)
            == Ok((v.core, DispatchFailed(w.core, d, error, budget, failure, now).value.1))
  {
    ReachableOk(w);
    var u := FailureMove(w, d, error, budget, failure, now);
    RunKeeps(u, v);
    ReplayGivesFirstAnswer(w.core, v.core, d, error, budget, failure, now, later);
  }

  // ---- The second fence ----

  /** At most one attempt of a dispatch runs, and it is the one that the result row names; the result row counts
      its attempts. */
  lemma OneRunner(w: World, a: AttemptId, b: AttemptId)
    requires Reachable(w) && a in w.exec.attempts && b in w.exec.attempts
    requires w.exec.attempts[a].dispatch == w.exec.attempts[b].dispatch
    ensures var d := w.exec.attempts[a].dispatch;
            && d in w.exec.results && w.exec.results[d].count == |AttemptsOf(w.exec, d)|
            && (w.exec.attempts[a].state == AttemptRunning && w.exec.attempts[b].state == AttemptRunning ==>
                  a == b && w.exec.results[d].current == Some(a))
  {
    ReachableOk(w);
    assert AttemptOk(w.exec, a) && ResultOk(w.core, w.exec, w.exec.attempts[a].dispatch);
    if w.exec.attempts[a].state == AttemptRunning && w.exec.attempts[b].state == AttemptRunning {
      OneRunningAttempt(w.core, w.exec, a, b);
    }
  }

  /** A later attempt of a dispatch has a higher generation. */
  lemma GenerationsIncrease(w: World, v: World, a: AttemptId, b: AttemptId)
    requires Reachable(w) && Later(w, v) && a in w.exec.attempts && b in v.exec.attempts && b !in w.exec.attempts
    requires v.exec.attempts[b].dispatch == w.exec.attempts[a].dispatch
    ensures w.exec.attempts[a].generation < v.exec.attempts[b].generation
  {
    LaterMoves(w, v);
    assert AttemptAppears(w.exec, v.exec, b);
  }

  /** A superseded worker can neither renew nor stage again; a staged payload is never rewritten; final states stay; and
      a dispatch that needs reconciliation gets no further attempt. */
  lemma ExecutionSettles(w: World, v: World, x: Context, d: DispatchId)
    requires Reachable(w) && Later(w, v)
    ensures x.dispatch in w.exec.results && x.attempt in w.exec.attempts && !CanRenew(w.exec, x) ==> !CanRenew(v.exec, x)
    ensures x.dispatch in w.exec.results && x.attempt in w.exec.attempts && !CanStage(w.exec, x) ==> !CanStage(v.exec, x)
    ensures d in w.exec.results ==>
              && d in v.exec.results
              && (w.exec.results[d].state != InProgress ==> v.exec.results[d].payload == w.exec.results[d].payload)
              && (Final(w.exec.results[d].state) ==> v.exec.results[d] == w.exec.results[d])
              && (!w.exec.results[d].retrySafe ==> AttemptsOf(v.exec, d) == AttemptsOf(w.exec, d))
  {
    LaterMoves(w, v);
    if x.dispatch in w.exec.results && x.attempt in w.exec.attempts { SupersededForEver(w.exec, v.exec, x); }
    if d in w.exec.results { ResultsSettle(w.core, w.exec, v.core, v.exec, d); }
  }

  lemma AttemptMove(w: World, d: DispatchId, token: int, worker: WorkerId, retrySafe: bool, a: AttemptId, now: int)
    returns (u: World)
    requires WorldOk(w) && Acquire(w.core, w.exec, d, token, worker, retrySafe, a, now).Ok?
    ensures u == Next(w, Move(OfWorker(AcquireOp(d, token, worker, retrySafe, a)), now)) && WorldOk(u)
    ensures u.exec == Acquire(w.core, w.exec, d, token, worker, retrySafe, a, now).value.0
  {
    var m := Move(OfWorker(AcquireOp(d, token, worker, retrySafe, a)), now);
    u := Next(w, m);
    NextKeeps(w, m);
  }

  lemma TriedOnce(
    c: Core, e: Exec, d: DispatchId, token: int, worker: WorkerId, a: AttemptId, now: int, b: Core, c': Core, g: Exec, x: AttemptId)
    requires Consistent(c) && Executes(c, e) && Acquire(c, e, d, token, worker, false, a, now).Ok? && a !in e.attempts
    requires var f := Acquire(c, e, d, token, worker, false, a, now).value.0;
             a in f.attempts && Executes(b, f) && Executes(c', g) && ExecMoves(f, g)
    requires x in g.attempts && g.attempts[x].dispatch == d
    ensures x == a || x in e.attempts
  {
    var f := Acquire(c, e, d, token, worker, false, a, now).value.0;
    AttemptWrites(c, e, d, token, worker, false, a, now);
    ResultsSettle(b, f, c', g, d);
    assert x in AttemptsOf(g, d);
  }

  /** Work that must be reconciled by hand is tried once: after an acquisition without retry began an attempt, whatever happens
      later, no other attempt of the dispatch is ever added. */
  lemma NoSecondAttempt(
    w: World, d: DispatchId, token: int, worker: WorkerId, a: AttemptId, now: int, v: World, b: AttemptId)
    requires Reachable(w) && Acquire(w.core, w.exec, d, token, worker, false, a, now).Ok? && a !in w.exec.attempts
    requires a in Next(w, Move(OfWorker(AcquireOp(d, token, worker, false, a)), now)).exec.attempts
    requires Later(Next(w, Move(OfWorker(AcquireOp(d, token, worker, false, a)), now)), v)
    requires b in v.exec.attempts && v.exec.attempts[b].dispatch == d
    ensures b == a || b in w.exec.attempts
  {
    ReachableOk(w);
    var u := AttemptMove(w, d, token, worker, false, a, now);
    RunKeeps(u, v);
    TriedOnce(w.core, w.exec, d, token, worker, a, now, u.core, v.core, v.exec, b);
  }

  /** The fences of claim, dispatch and result agree for every live claim, so recovery never fails on identity. */
  lemma RecoveryNeverTrips(w: World, rows: seq<LeaseId>, kinds: set<nat>, ttl: int, now: int, sla: int)
    requires Reachable(w) && Lists(rows, LiveLeases(w.core))
    ensures RecoverLocal(w.core, w.exec, rows, kinds, ttl, now, sla).Ok?
    ensures forall l :: LeaseLive(w.core, l) ==>
              var d := w.core.claims[l].dispatch;
              d in w.core.outbox && IdentityMatches(l, w.core.claims[l], w.core.outbox[d], ResultOf(w.exec, d))
  {
    ReachableOk(w);
    RecoverLocalKeeps(w.core, w.exec, rows, kinds, ttl, now, sla);
    forall l | LeaseLive(w.core, l)
      ensures w.core.claims[l].dispatch in w.core.outbox
              && IdentityMatches(l, w.core.claims[l], w.core.outbox[w.core.claims[l].dispatch], ResultOf(w.exec, w.core.claims[l].dispatch))
    { IdentityAlwaysMatches(w.core, w.exec, l); }
  }

  /** A final result says what the claim says, with exactly the staged payload; a staged result that lost its authority
      has a stale claim. */
  lemma FinalAgrees(w: World, d: DispatchId)
    requires Reachable(w) && d in w.exec.results
    ensures var r := w.exec.results[d];
            && r.lease in w.core.claims
            && (r.state == Succeeded ==> w.core.claims[r.lease].status == Completed && w.core.claims[r.lease].reason == r.payload)
            && (r.state == Failed ==> w.core.claims[r.lease].status == Blocked && w.core.claims[r.lease].reason == r.payload)
            && (r.state == AuthorityLost && r.payload != NoDoc ==> w.core.claims[r.lease].status == Stale)
            && (r.state == InProgress ==> r.payload == NoDoc)
  {
    ReachableOk(w);
    assert ResultOk(w.core, w.exec, d);
  }

  /** However long ago a worker crashed between the two transactions of its commit, the result is still staged or has its
      final state, and repeating the second transaction always gives it that state. */
  lemma CommitSurvivesCrash(w: World, t: Ticket)
    requires Reachable(w) && t in w.seals
    ensures t.dispatch in w.exec.results
    ensures w.exec.results[t.dispatch].state == ResultReady || w.exec.results[t.dispatch].state == FinalState(t)
    ensures Finish(w.exec, t).Ok? && Finish(w.exec, t).value.results[t.dispatch].state == FinalState(t)
  {
    ReachableOk(w);
    assert TicketOk(w.exec, t) && SealOk(w.core, t);
    SealedResult(w.core, w.exec, t);
    FinishKeeps(w.core, w.exec, t);
  }

  /** Another worker that comes to the dispatch after such a crash finds the result finished, or repeats the whole commit:
      the supervisor part is a replay without effect, and the result gets its final state. */
  lemma CommitCanBeRepeated(w: World, t: Ticket, now: int)
    requires Reachable(w) && t in w.seals
    ensures t.dispatch in w.exec.results
    ensures w.exec.results[t.dispatch].state != FinalState(t) ==>
              var again := ReadStaged(w.exec, t.dispatch);
              && again.Ok? && Seal(w.core, again.value, now) == Ok(w.core) && Finish(w.exec, again.value).Ok?
              && Finish(w.exec, again.value).value.results[t.dispatch].state == FinalState(t)
  {
    ReachableOk(w);
    assert TicketOk(w.exec, t) && SealOk(w.core, t);
    SealedResult(w.core, w.exec, t);
    if w.exec.results[t.dispatch].state != FinalState(t) { CommitAgain(w.core, w.exec, t.dispatch, now); }
  }
}
