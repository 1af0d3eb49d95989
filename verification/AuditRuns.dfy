/** When exactly `audit_invariants` stays clean. The audit is not inductive for the raw store: an evaluation timeout
    bumps the fence of a lane without looking for a live lease. That one case is the only one, and the validation
    guard excludes it. */
module AuditRuns {
  import opened Wrappers
  import opened Tables
  import opened SupervisorSpec
  import opened SupervisorInvariants
  import opened SupervisorSafety
  import opened ValidationGuard
  import opened StoreSteps
  import opened SecondShift
  import opened SecondShiftRuns

  /** The candidate `m` times out at `now` on a lane where the lease `l` is live and in time. */
  predicate CrossedBy(c: Core, m: LeaseId, l: LeaseId, now: int, sla: int) {
    && m in c.claims && l in c.claims && c.claims[m].lane == c.claims[l].lane
    && c.claims[m].status == Validating && TimedOut(c.claims[m], now)
    && Live(c.claims[l]) && !Expired(c.claims[l], now, sla)
  }

  ghost predicate Crosses(c: Core, now: int, sla: int) { exists m, l :: CrossedBy(c, m, l, now, sla) }

  // ---- The two loops of `recover` ----

  /** What the first loop does to a claim: expired live leases end, the others are left alone. */
  predicate Sifted(c: Core, b: Core, l: LeaseId, rows: seq<LeaseId>, now: int, sla: int) {
    && (l in b.claims <==> l in c.claims)
    && (l in c.claims ==>
          if l in rows && Expired(c.claims[l], now, sla) then !Live(b.claims[l]) && b.claims[l].status == Stale
          else b.claims[l] == c.claims[l])
  }

  lemma {:induction false} RecoverLiveSifts(c: Core, rows: seq<LeaseId>, now: int, sla: int, l: LeaseId)
    requires Distinct(rows)
    ensures Sifted(c, RecoverLive(c, rows, now, sla), l, rows, now, sla)
    decreases |rows|
  {
    if rows != [] { RecoverLiveSifts(RecoverOne(c, rows[0], now, sla), rows[1..], now, sla, l); }
  }

  lemma TimeoutOneFrame(c: Core, lease: LeaseId, now: int, l: LeaseId, x: LaneId)
    requires Consistent(c) && (lease in c.claims ==> c.claims[lease].status == Validating)
    ensures LeaseLive(c, l) ==> LeaseLive(TimeoutOne(c, lease, now), l) && TimeoutOne(c, lease, now).claims[l] == c.claims[l]
    ensures x in c.lanes && c.lanes[x].state != HasClaim ==>
              x in TimeoutOne(c, lease, now).lanes && TimeoutOne(c, lease, now).lanes[x].state != HasClaim
  { if LeaseLive(c, l) { assert ClaimOk(c, l); } }

  /** The second loop leaves live claims alone and never gives a lane back to one. */
  lemma {:induction false} TimeoutAllFrame(c: Core, rows: seq<LeaseId>, now: int, l: LeaseId, x: LaneId)
    requires AllWaiting(c, rows) && Distinct(rows) && Consistent(c)
    ensures LeaseLive(c, l) ==> LeaseLive(TimeoutAll(c, rows, now), l) && TimeoutAll(c, rows, now).claims[l] == c.claims[l]
    ensures x in c.lanes && c.lanes[x].state != HasClaim ==>
              x in TimeoutAll(c, rows, now).lanes && TimeoutAll(c, rows, now).lanes[x].state != HasClaim
    decreases |rows|
  {
    if rows != [] {
      var c1 := TimeoutOne(c, rows[0], now);
      TimeoutOneSafe(c, rows[0], now);
      TailRows(c, c1, rows);
      TimeoutOneFrame(c, rows[0], now, l, x);
      TimeoutAllFrame(c1, rows[1..], now, l, x);
    }
  }

  lemma {:induction false} TimeoutTakesLane(c: Core, rows: seq<LeaseId>, now: int, m: LeaseId)
    requires AllWaiting(c, rows) && Distinct(rows) && Consistent(c)
    requires m in rows && m in c.claims && TimedOut(c.claims[m], now)
    ensures var b := TimeoutAll(c, rows, now); c.claims[m].lane in b.lanes && b.lanes[c.claims[m].lane].state != HasClaim
    decreases |rows|
  {
    var c1 := TimeoutOne(c, rows[0], now);
    TimeoutOneSafe(c, rows[0], now);
    TailRows(c, c1, rows);
    assert ClaimOk(c, m);
    if m == rows[0] { TimeoutAllFrame(c1, rows[1..], now, m, c.claims[m].lane); }
    else { TimeoutTakesLane(c1, rows[1..], now, m); }
  }

  /** No candidate of the list that times out shares its lane with a live lease. */
  ghost predicate Apart(c: Core, rows: seq<LeaseId>, now: int) {
    forall m :: m in rows && m in c.claims && TimedOut(c.claims[m], now) ==> !LaneBusy(c, c.claims[m].lane)
  }

  lemma ApartTail(c: Core, rows: seq<LeaseId>, now: int)
    requires rows != [] && Distinct(rows) && AllWaiting(c, rows) && Consistent(c) && Apart(c, rows, now)
    ensures Apart(TimeoutOne(c, rows[0], now), rows[1..], now)
  {
    var b := TimeoutOne(c, rows[0], now);
    forall m | m in rows[1..] && m in b.claims && TimedOut(b.claims[m], now) ensures !LaneBusy(b, b.claims[m].lane) {
      assert m in rows && m != rows[0] && b.claims[m] == c.claims[m];
      assert !LaneBusy(c, c.claims[m].lane);
      if rows[0] in c.claims { assert ClaimOk(c, rows[0]); }
      forall l | l in b.claims && Live(b.claims[l]) ensures b.claims[l].lane != c.claims[m].lane {
        assert Live(c.claims[l]) && c.claims[l].lane == b.claims[l].lane;
      }
    }
  }

  lemma TimeoutOneShown(c: Core, lease: LeaseId, now: int)
    requires Consistent(c) && Shown(c) && (lease in c.claims ==> c.claims[lease].status == Validating)
    requires lease in c.claims && TimedOut(c.claims[lease], now) ==> !LaneBusy(c, c.claims[lease].lane)
    ensures Shown(TimeoutOne(c, lease, now))
  {
    if lease in c.claims && TimedOut(c.claims[lease], now) {
      assert ClaimOk(c, lease);
      TouchShown(c, TimeoutOne(c, lease, now), lease);
    }
  }

  lemma {:induction false} TimeoutAllShown(c: Core, rows: seq<LeaseId>, now: int)
    requires Consistent(c) && Shown(c) && Distinct(rows) && AllWaiting(c, rows) && Apart(c, rows, now)
    ensures Shown(TimeoutAll(c, rows, now))
    decreases |rows|
  {
    if rows != [] {
      assert rows[0] in rows;
      TimeoutOneShown(c, rows[0], now);
      TimeoutOneSafe(c, rows[0], now);
      TailRows(c, TimeoutOne(c, rows[0], now), rows);
      ApartTail(c, rows, now);
      TimeoutAllShown(TimeoutOne(c, rows[0], now), rows[1..], now);
    }
  }

  // ---- One transaction ----

  lemma RecoverBreaks(c: Core, now: int, sla: int, live: seq<LeaseId>, waiting: seq<LeaseId>, m: LeaseId, l: LeaseId)
    requires Consistent(c) && Recover(c, now, sla, live, waiting).Ok? && CrossedBy(c, m, l, now, sla)
    ensures !AuditClean(Recover(c, now, sla, live, waiting).value)
  {
    var c1 := RecoverLive(c, live, now, sla);
    RecoverLiveSound(c, live, now, sla);
    RecoverLiveSifts(c, live, now, sla, m);
    RecoverLiveSifts(c, live, now, sla, l);
    assert ClaimOk(c, m) && m in waiting;
    TimeoutTakesLane(c1, waiting, now, m);
    TimeoutAllFrame(c1, waiting, now, l, 0);
  }

  lemma SiftedApart(c: Core, now: int, sla: int, live: seq<LeaseId>, waiting: seq<LeaseId>)
    requires Lists(live, LiveLeases(c)) && !Crosses(c, now, sla)
    requires Lists(waiting, WaitingLeases(RecoverLive(c, live, now, sla)))
    ensures Apart(RecoverLive(c, live, now, sla), waiting, now)
  {
    var c1 := RecoverLive(c, live, now, sla);
    forall m | m in waiting && m in c1.claims && TimedOut(c1.claims[m], now) ensures !LaneBusy(c1, c1.claims[m].lane) {
      RecoverLiveSifts(c, live, now, sla, m);
      forall l | l in c1.claims && Live(c1.claims[l]) ensures c1.claims[l].lane != c1.claims[m].lane {
        RecoverLiveSifts(c, live, now, sla, l);
        assert !CrossedBy(c, m, l, now, sla);
      }
    }
  }

  /** The audit after a `recover` is clean if and only if no candidate timed out beside a live lease. */
  lemma RecoverAudit(c: Core, now: int, sla: int, live: seq<LeaseId>, waiting: seq<LeaseId>)
    requires Consistent(c) && Shown(c) && Recover(c, now, sla, live, waiting).Ok?
    ensures AuditClean(Recover(c, now, sla, live, waiting).value) <==> !Crosses(c, now, sla)
    ensures !Crosses(c, now, sla) ==> Shown(Recover(c, now, sla, live, waiting).value)
  {
    if Crosses(c, now, sla) {
      var m, l :| CrossedBy(c, m, l, now, sla);
      RecoverBreaks(c, now, sla, live, waiting, m, l);
    } else {
      RecoverLiveSound(c, live, now, sla);
      RecoverSafe(c, now, sla, live, waiting);
      SiftedApart(c, now, sla, live, waiting);
      TimeoutAllShown(RecoverLive(c, live, now, sla), waiting, now);
      ShownIsClean(Recover(c, now, sla, live, waiting).value);
    }
  }

  ghost predicate Crossing(w: World, m: Move) { IsRecover(m.op) && Crosses(w.core, m.now, m.op.store.sla) }

  lemma RecoverMoveAudit(w: World, m: Move)
    requires WorldOk(w) && Shown(w.core) && Step(w, m.op, m.now).Ok? && IsRecover(m.op)
    ensures AuditClean(Step(w, m.op, m.now).value.core) <==> !Crossing(w, m)
    ensures !Crossing(w, m) ==> Shown(Step(w, m.op, m.now).value.core)
  {
    var op := m.op.store;
    RecoverAudit(w.core, m.now, op.sla, op.live, op.waiting);
    assert Step(w, m.op, m.now).value.core == Recover(w.core, m.now, op.sla, op.live, op.waiting).value;
  }

  /** Of all transactions of all actors only this one breaks the audit, and it always does. */
  lemma StepAudit(w: World, m: Move)
    requires WorldOk(w) && Shown(w.core) && Step(w, m.op, m.now).Ok?
    ensures AuditClean(Step(w, m.op, m.now).value.core) <==> !Crossing(w, m)
    ensures !Crossing(w, m) ==> Shown(Step(w, m.op, m.now).value.core)
  {
    if IsRecover(m.op) { RecoverMoveAudit(w, m); }
    else {
      StepKeeps(w, m.op, m.now);
      ShownIsClean(Step(w, m.op, m.now).value.core);
    }
  }

  // ---- Runs ----

  ghost predicate NeverCrosses(w: World, ms: seq<Move>)
    decreases |ms|
  {
    ms == [] || (!Crossing(w, ms[0]) && NeverCrosses(Next(w, ms[0]), ms[1..]))
  }

  ghost predicate GuardedRun(w: World, ms: seq<Move>)
    decreases |ms|
  {
    ms == [] || (RespectsValidation(w, ms[0].op, ms[0].now) && GuardedRun(Next(w, ms[0]), ms[1..]))
  }

  lemma {:induction false} ShownAlong(w: World, ms: seq<Move>)
    requires WorldOk(w) && Shown(w.core) && NeverCrosses(w, ms)
    ensures WorldOk(After(w, ms)) && Shown(After(w, ms).core)
    decreases |ms|
  {
    if ms != [] {
      NextKeeps(w, ms[0]);
      if Step(w, ms[0].op, ms[0].now).Ok? { StepAudit(w, ms[0]); }
      ShownAlong(Next(w, ms[0]), ms[1..]);
    }
  }

  /** The audit is clean until the first crossing of a run, and broken by that one. */
  lemma AuditUntilCrossing(ms: seq<Move>, m: Move)
    requires NeverCrosses(Start(), ms)
    ensures AuditClean(After(Start(), ms).core)
    ensures Step(After(Start(), ms), m.op, m.now).Ok? ==>
              (AuditClean(Next(After(Start(), ms), m).core) <==> !Crossing(After(Start(), ms), m))
  {
    StartOk();
    ShownAlong(Start(), ms);
    ShownIsClean(After(Start(), ms).core);
    if Step(After(Start(), ms), m.op, m.now).Ok? { StepAudit(After(Start(), ms), m); }
  }

  lemma {:induction false} GuardedAlong(w: World, ms: seq<Move>)
    requires WorldOk(w) && Guarded(w.core) && GuardedRun(w, ms)
    ensures WorldOk(After(w, ms)) && Guarded(After(w, ms).core)
    decreases |ms|
  {
    if ms != [] {
      NextKeeps(w, ms[0]);
      if Step(w, ms[0].op, ms[0].now).Ok? { StepKeeps(w, ms[0].op, ms[0].now); }
      GuardedAlong(Next(w, ms[0]), ms[1..]);
    }
  }

  /** If leases are granted only on lanes without a waiting candidate, the audit is clean in every state, and every
      lane has at most one open claim. */
  lemma GuardedAuditClean(ms: seq<Move>, l: LeaseId, m: LeaseId)
    requires GuardedRun(Start(), ms)
    ensures var c := After(Start(), ms).core;
            && AuditClean(c)
            && (l in c.claims && m in c.claims && OpenTogether(c, l, m) ==> l == m)
  {
    StartOk();
    GuardedAlong(Start(), ms);
    ShownIsClean(After(Start(), ms).core);
  }
}
