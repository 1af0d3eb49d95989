/** How far the scheduler's candidate filter is the validation guard: it sees a waiting candidate exactly when its
    delegation is scheduled, bound and not cancelled. */
module SchedulerGuard {
  import opened Tables
  import opened SupervisorSpec
  import opened SupervisorInvariants
  import opened CoordinationSpec
  import opened CoordinationSafety
  import opened NightSpec
  import opened SecondShift

  /** A claim of scheduled work for this lane waits for its evaluator, and the work was not cancelled. */
  predicate WaitsInQueue(c: Core, n: Night, l: LeaseId, lane: LaneId) {
    && l in c.claims && c.claims[l].status == Validating
    && var d := c.claims[l].delegation;
    && d in n.queue && n.queue[d].state != Binding && n.queue[d].handoff.lane == lane
    && d in c.delegations && c.delegations[d].state != Cancelled
  }

  lemma QueuedWaiting(c: Core, k: Coord, n: Night, l: LeaseId, lane: LaneId)
    requires Consistent(c) && Planned(c, k) && WaitsInQueue(c, n, l, lane)
    ensures LaneEvaluates(Reconciled(c, k, n), lane)
  {
    var d := c.claims[l].delegation;
    assert ClaimOk(c, l);
    if d in k.tasks { assert TaskOk(c, k, d); }
    assert Reconciled(c, k, n).queue[d].state == InEvaluation;
  }

  /** After `reconcile` the filter holds back a lane if and only if such a claim waits on it. */
  lemma FilterSeesWaiting(c: Core, k: Coord, n: Night, lane: LaneId)
    requires Consistent(c) && Planned(c, k)
    ensures LaneEvaluates(Reconciled(c, k, n), lane) <==> exists l :: WaitsInQueue(c, n, l, lane)
  {
    var m := Reconciled(c, k, n);
    if LaneEvaluates(m, lane) {
      var d :| d in m.queue && m.queue[d].state == InEvaluation && m.queue[d].handoff.lane == lane;
      assert m.queue[d] == ReconciledRow(c, k, n.queue[d], d);
      assert DelegationOk(c, d);
      var l :| l in c.claims && c.claims[l].delegation == d;
      assert ClaimOk(c, l) && WaitsInQueue(c, n, l, lane);
    }
    if l :| WaitsInQueue(c, n, l, lane) { QueuedWaiting(c, k, n, l, lane); }
  }

  /** Hence a scheduler claim keeps the guard whenever every waiting candidate of its lane is scheduled work. */
  lemma CandidateRespectsValidation(w: World, d: DelegationId, now: int)
    requires WorldOk(w) && Candidate(Reconciled(w.core, w.coord, w.night), d, now)
    requires var lane := w.night.queue[d].handoff.lane;
             forall l :: l in w.core.claims && w.core.claims[l].status == Validating && w.core.claims[l].lane == lane
               ==> WaitsInQueue(w.core, w.night, l, lane)
    ensures !LaneInValidation(w.core, w.night.queue[d].handoff.lane)
  {
    var lane := w.night.queue[d].handoff.lane;
    forall l | l in w.core.claims && w.core.claims[l].lane == lane ensures w.core.claims[l].status != Validating {
      if WaitsInQueue(w.core, w.night, l, lane) { QueuedWaiting(w.core, w.coord, w.night, l, lane); }
    }
  }

  /** The filter is not the whole guard: cancelling work that waits for its evaluator leaves the claim VALIDATING and
      takes the work out of the filter's sight. */
  lemma CancelHidesWaiting(c: Core, k: Coord, n: Night, l: LeaseId, now: int)
    requires Consistent(c) && Planned(c, k) && l in c.claims && c.claims[l].status == Validating
    requires c.claims[l].delegation in k.tasks && c.claims[l].delegation in c.delegations
    requires c.delegations[c.claims[l].delegation].state == Validating
    requires !k.tasks[c.claims[l].delegation].cancelled
    ensures CancelOne(c, k, c.claims[l].delegation, now).Ok?
    ensures var b := CancelOne(c, k, c.claims[l].delegation, now).value.0;
            LaneInValidation(b, c.claims[l].lane) && forall x :: !WaitsInQueue(b, n, l, x)
  {
    var d := c.claims[l].delegation;
    assert ClaimOk(c, l);
    forall m | m in c.claims && c.claims[m].delegation == d ensures m == l { }
    assert !HasLive(c, d);
    var b := CancelOne(c, k, d, now).value.0;
    assert b == CancelIdle(c, d, now);
    assert l in b.claims && b.claims[l] == c.claims[l];
  }
}
