/** Under the guard that no lease is granted on a lane whose candidate still waits for an evaluator, a lane has at
    most one open claim, and its row and fence always agree with it. */
module ValidationGuard {
  import opened Wrappers
  import opened Tables
  import opened SupervisorSpec
  import opened SupervisorInvariants
  import opened SupervisorSafety
  import opened CoordinationSpec
  import opened ExecutionSpec

  /** The lane row shows the live claim: state, current delegation and fence. */
  predicate ShownByLane(c: Core, l: LeaseId)
    requires l in c.claims
  {
    Live(c.claims[l]) ==>
      && c.claims[l].lane in c.lanes
      && var n := c.lanes[c.claims[l].lane];
      n.fence == c.claims[l].token && n.state == HasClaim && n.current == Some(c.claims[l].delegation)
  }

  ghost predicate LaneOk(c: Core, x: LaneId)
    requires x in c.lanes
  {
    c.lanes[x].state == HasClaim ==> LaneBusy(c, x)
  }

  predicate OpenTogether(c: Core, l: LeaseId, m: LeaseId)
    requires l in c.claims && m in c.claims
  {
    Open(c.claims[l]) && Open(c.claims[m]) && c.claims[l].lane == c.claims[m].lane
  }

  /** The lane rows and the live claims tell the same. */
  ghost predicate Shown(c: Core) {
    && (forall l {:trigger ShownByLane(c, l)} :: l in c.claims ==> ShownByLane(c, l))
    && (forall x {:trigger LaneOk(c, x)} :: x in c.lanes ==> LaneOk(c, x))
  }

  ghost predicate OneOpen(c: Core) {
    forall l, m {:trigger OpenTogether(c, l, m)} :: l in c.claims && m in c.claims && OpenTogether(c, l, m) ==> l == m
  }

  ghost predicate Guarded(c: Core) { Shown(c) && OneOpen(c) }

  // ---- A change around one claim ----

  /** Neither the lane row nor what it shows about the claim changes. */
  predicate LaneUntouched(c: Core, b: Core, lease: LeaseId)
    requires lease in c.claims && lease in b.claims
  {
    b.lanes == c.lanes && Live(b.claims[lease]) == Live(c.claims[lease]) && b.claims[lease].token == c.claims[lease].token
  }

  /** The claim is the only live one of its lane, and the lane row shows what became of it. */
  ghost predicate LaneFollows(c: Core, b: Core, lease: LeaseId)
    requires lease in c.claims && lease in b.claims && b.claims[lease].lane in b.lanes
  {
    && (forall l :: l in c.claims && Live(c.claims[l]) && c.claims[l].lane == c.claims[lease].lane ==> l == lease)
    && ShownByLane(b, lease)
    && (b.lanes[b.claims[lease].lane].state == HasClaim ==> Live(b.claims[lease]))
  }

  lemma StillBusy(c: Core, b: Core, lease: LeaseId, x: LaneId)
    requires lease in c.claims && lease in b.claims && b.claims == c.claims[lease := b.claims[lease]]
    requires LaneBusy(c, x) && (c.claims[lease].lane == x ==> b.claims[lease].lane == x && Live(b.claims[lease]) == Live(c.claims[lease]))
    ensures LaneBusy(b, x)
  {
    var l :| l in c.claims && Live(c.claims[l]) && c.claims[l].lane == x;
    assert l in b.claims && Live(b.claims[l]) && b.claims[l].lane == x;
  }

  lemma TouchShown(c: Core, b: Core, lease: LeaseId)
    requires Consistent(c) && Shown(c) && Touches(c, b, lease)
    requires LaneUntouched(c, b, lease) || LaneFollows(c, b, lease)
    ensures Shown(b)
  {
    var lane := c.claims[lease].lane;
    forall l | l in b.claims ensures ShownByLane(b, l) { assert ShownByLane(c, l) && ClaimOk(c, l); }
    forall x | x in b.lanes ensures LaneOk(b, x) {
      assert LaneOk(c, x);
      if x == lane && LaneFollows(c, b, lease) {
        assert b.lanes[x].state == HasClaim ==> Live(b.claims[lease]) && b.claims[lease].lane == x;
      } else if b.lanes[x].state == HasClaim { StillBusy(c, b, lease, x); }
    }
  }

  lemma TouchGuarded(c: Core, b: Core, lease: LeaseId)
    requires Consistent(c) && Guarded(c) && Touches(c, b, lease)
    requires Open(b.claims[lease]) ==> Open(c.claims[lease])
    requires LaneUntouched(c, b, lease) || LaneFollows(c, b, lease)
    ensures Guarded(b)
  {
    TouchShown(c, b, lease);
    forall l, m | l in b.claims && m in b.claims && OpenTogether(b, l, m) ensures l == m { assert OpenTogether(c, l, m); }
  }

  // ---- The other primitive changes ----

  lemma SameClaimsGuarded(c: Core, b: Core)
    requires Consistent(c) && Shown(c) && b.claims == c.claims
    requires forall x :: x in b.lanes && x in c.lanes && b.lanes[x] != c.lanes[x] ==> !LaneBusy(c, x)
    requires forall x :: x in b.lanes && b.lanes[x].state == HasClaim ==> x in c.lanes && c.lanes[x].state == HasClaim
    requires c.lanes.Keys <= b.lanes.Keys
    ensures Shown(b) && (OneOpen(c) ==> OneOpen(b))
  {
    if OneOpen(c) {
      forall l, m | l in b.claims && m in b.claims && OpenTogether(b, l, m) ensures l == m { assert OpenTogether(c, l, m); }
    }
    forall l | l in b.claims ensures ShownByLane(b, l) { assert ShownByLane(c, l) && ClaimOk(c, l); }
    forall x | x in b.lanes ensures LaneOk(b, x) {
      if x in c.lanes { assert LaneOk(c, x); }
      assert LaneBusy(c, x) == LaneBusy(b, x);
    }
  }

  lemma CancelIdleGuarded(c: Core, d: DelegationId, now: int)
    requires Consistent(c) && Shown(c) && d in c.delegations && !HasLive(c, d)
    ensures Shown(CancelIdle(c, d, now)) && (OneOpen(c) ==> OneOpen(CancelIdle(c, d, now)))
  {
    var lane := c.delegations[d].lane;
    if lane in c.lanes && c.lanes[lane].current == Some(d) {
      forall l | l in c.claims && Live(c.claims[l]) ensures c.claims[l].lane != lane { assert ShownByLane(c, l); }
      assert !LaneBusy(c, lane);
    }
    SameClaimsGuarded(c, CancelIdle(c, d, now));
  }

  /** The lane row shows a new lease even when a candidate of the lane still waits for its evaluator. */
  lemma GrantShown(c: Core, q: Request)
    requires Consistent(c) && Shown(c) && Grantable(c, q) && Fresh(c, q)
    ensures Shown(Grant(c, q))
  {
    var b := Grant(c, q);
    forall l | l in b.claims ensures ShownByLane(b, l) {
      if l in c.claims { assert ShownByLane(c, l) && ClaimOk(c, l); }
    }
    forall x | x in b.lanes ensures LaneOk(b, x) {
      assert LaneOk(c, x);
      if x == q.lane { assert Live(b.claims[q.lease]) && b.claims[q.lease].lane == x; }
      else if b.lanes[x].state == HasClaim {
        var l :| l in c.claims && Live(c.claims[l]) && c.claims[l].lane == x;
        assert l in b.claims && Live(b.claims[l]) && b.claims[l].lane == x;
      }
    }
  }

  lemma GrantGuarded(c: Core, q: Request)
    requires Consistent(c) && Guarded(c) && Grantable(c, q) && Fresh(c, q) && !LaneInValidation(c, q.lane)
    ensures Guarded(Grant(c, q))
  {
    var b := Grant(c, q);
    GrantShown(c, q);
    forall l | l in c.claims && c.claims[l].lane == q.lane ensures !Open(c.claims[l]) { assert ClaimOk(c, l); }
    forall l, m | l in b.claims && m in b.claims && OpenTogether(b, l, m) ensures l == m {
      if l in c.claims && m in c.claims { assert OpenTogether(c, l, m); }
    }
  }

  // ---- The audit ----

  /** The logical part of `audit_invariants` finds no problem. */
  ghost predicate AuditClean(c: Core) {
    && (forall l, m :: (l in c.claims && m in c.claims && Live(c.claims[l]) && Live(c.claims[m]) && c.claims[l].lane == c.claims[m].lane) ==> l == m)
    && (forall x :: x in c.lanes && c.lanes[x].state == HasClaim ==> LaneBusy(c, x))
    && (forall l :: l in c.claims && Live(c.claims[l]) && c.claims[l].lane in c.lanes ==>
          c.lanes[c.claims[l].lane].state == HasClaim && c.lanes[c.claims[l].lane].fence == c.claims[l].token)
    && (forall d :: d in c.outbox ==> c.outbox[d].lease in c.claims)
    && (forall d :: d in c.delegations && c.delegations[d].state == Validating ==>
          HasClaimRow(c, d) && forall l :: l in c.claims && c.claims[l].delegation == d ==>
            && c.claims[l].status == Validating && !Live(c.claims[l])
            && c.claims[l].dispatch in c.outbox && c.outbox[c.claims[l].dispatch].state == InValidation)
  }

  lemma ShownIsClean(c: Core)
    requires Consistent(c) && Shown(c)
    ensures AuditClean(c)
  {
    forall x | x in c.lanes && c.lanes[x].state == HasClaim ensures LaneBusy(c, x) { assert LaneOk(c, x); }
    forall l | l in c.claims && Live(c.claims[l])
      ensures c.claims[l].lane in c.lanes
              && c.lanes[c.claims[l].lane].state == HasClaim && c.lanes[c.claims[l].lane].fence == c.claims[l].token
    { assert ClaimOk(c, l) && ShownByLane(c, l); }
    forall d | d in c.outbox ensures c.outbox[d].lease in c.claims { assert OutboxRowOk(c, d); }
    forall d | d in c.delegations && c.delegations[d].state == Validating
      ensures HasClaimRow(c, d) && forall l :: l in c.claims && c.claims[l].delegation == d ==>
            && c.claims[l].status == Validating && !Live(c.claims[l])
            && c.claims[l].dispatch in c.outbox && c.outbox[c.claims[l].dispatch].state == InValidation
    {
      assert DelegationOk(c, d);
      forall l | l in c.claims && c.claims[l].delegation == d
        ensures c.claims[l].status == Validating && !Live(c.claims[l])
            && c.claims[l].dispatch in c.outbox && c.outbox[c.claims[l].dispatch].state == InValidation
      { assert ClaimOk(c, l); }
    }
  }
}
