/** What every transaction on the supervisor tables keeps, and how the tables may change over time. */
module SupervisorInvariants {
  import opened Wrappers
  import opened Tables
  import opened SupervisorSpec

  // ---- One state ----

  /** How the status of a claim and the state of its delegation go together. */
  predicate Agree(claim: Status, delegation: Status) {
    match claim
    case Claimed => delegation == Claimed
    case Running => delegation == Claimed
    case Recovered => delegation == Claimed
    case Validating => delegation == Validating || delegation == Cancelled
    case Completed => delegation == Completed
    case Blocked => delegation == Blocked || delegation == Cancelled
    case Stale => delegation == Stale || delegation == Cancelled
    case Cancelled => delegation == Cancelled
    case Ready => false
  }

  predicate LiveStatus(s: Status) { s == Claimed || s == Running || s == Recovered }

  /** The foreign keys of a claim row, and its agreement with the rows they lead to. */
  predicate ClaimOk(c: Core, l: LeaseId)
    requires l in c.claims
  {
    var r := c.claims[l];
    && r.delegation in c.delegations && c.delegations[r.delegation].lane == r.lane
    && r.lane in c.lanes
    && r.dispatch in c.outbox && c.outbox[r.dispatch].lease == l
    && c.outbox[r.dispatch].token == r.token && c.outbox[r.dispatch].key == r.key
    && Live(r) == LiveStatus(r.status)
    && Agree(r.status, c.delegations[r.delegation].state)
    && r.token <= c.lanes[r.lane].fence
    && (Live(r) ==> c.lanes[r.lane].head == r.head)
    && (r.status == Validating ==> r.reason.HandoffDoc? && c.outbox[r.dispatch].state == InValidation)
    && (c.outbox[r.dispatch].state == CancelRequested ==> !Live(r) && c.outbox[r.dispatch].run.Some?)
  }

  ghost predicate HasClaimRow(c: Core, d: DelegationId) { exists l :: l in c.claims && c.claims[l].delegation == d }

  predicate NeedsClaim(s: Status) { s == Claimed || s == Validating || s == Completed }

  predicate OutboxRowOk(c: Core, d: DispatchId)
    requires d in c.outbox
  {
    c.outbox[d].lease in c.claims && c.claims[c.outbox[d].lease].dispatch == d
  }

  ghost predicate DelegationOk(c: Core, d: DelegationId)
    requires d in c.delegations
  {
    c.delegations[d].lane in c.lanes && (NeedsClaim(c.delegations[d].state) ==> HasClaimRow(c, d))
  }

  ghost predicate ClaimsOk(c: Core) { forall l {:trigger ClaimOk(c, l)} :: l in c.claims ==> ClaimOk(c, l) }

  ghost predicate OutboxOk(c: Core) { forall d {:trigger OutboxRowOk(c, d)} :: d in c.outbox ==> OutboxRowOk(c, d) }

  ghost predicate DelegationsOk(c: Core) {
    forall d {:trigger DelegationOk(c, d)} :: d in c.delegations ==> DelegationOk(c, d)
  }

  ghost predicate OneClaimEach(c: Core) {
    forall l, m :: l in c.claims && m in c.claims && c.claims[l].delegation == c.claims[m].delegation ==> l == m
  }

  ghost predicate OneLiveEach(c: Core) {
    forall l, m ::
      (l in c.claims && m in c.claims && Live(c.claims[l]) && Live(c.claims[m]) && c.claims[l].lane == c.claims[m].lane)
      ==> l == m
  }

  /** A fence was given to one lease only. */
  ghost predicate OneTokenEach(c: Core) {
    forall l, m ::
      (l in c.claims && m in c.claims && c.claims[l].lane == c.claims[m].lane && c.claims[l].token == c.claims[m].token)
      ==> l == m
  }

  ghost predicate Consistent(c: Core) {
    ClaimsOk(c) && OutboxOk(c) && DelegationsOk(c) && OneClaimEach(c) && OneLiveEach(c) && OneTokenEach(c)
  }

  // ---- Two states ----

  function Rank(s: Status): nat {
    match s case Ready => 0 case Claimed => 1 case Validating => 2 case _ => 3
  }

  predicate Dead(s: Status) { s == Blocked || s == Stale || s == Cancelled }

  predicate LaneMoves(p: LaneRow, q: LaneRow) {
    p.fence <= q.fence && (p.head != q.head ==> p.fence < q.fence)
  }

  predicate DelegationMoves(p: DelegationRow, q: DelegationRow) {
    && q.lane == p.lane && q.objective == p.objective && q.head == p.head && q.evaluated == p.evaluated
    && Rank(p.state) <= Rank(q.state)
    && (p.state == Completed ==> q.state == Completed)
    && (Dead(p.state) ==> Dead(q.state))
  }

  /** `fence` is the lane counter in the earlier state. */
  predicate ClaimMoves(p: ClaimRow, q: ClaimRow, fence: nat) {
    && q.lane == p.lane && q.delegation == p.delegation && q.objective == p.objective && q.head == p.head
    && q.key == p.key && q.dispatch == p.dispatch
    && (q.token != p.token ==> Live(p) && q.token > fence)
    && (!Live(p) ==> q.released == p.released)
    && (!Live(p) && p.status != Validating ==> q.status == p.status && q.reason == p.reason)
    && (p.status == Validating ==>
          (q.status == Validating && q.reason == p.reason) || q.status == Completed || q.status == Blocked || q.status == Stale)
  }

  /** `live`: the lease of the dispatch is live in the earlier state. */
  predicate OutboxMoves(p: OutboxRow, q: OutboxRow, live: bool) {
    && q.lane == p.lane && q.lease == p.lease && q.key == p.key && q.kind == p.kind && q.payload == p.payload
    && (p.run.Some? ==> q.run == p.run)
    && (q.state == CancelRequested ==> p.state == CancelRequested || live)
  }

  predicate LaneEvolves(a: Core, b: Core, x: LaneId)
    requires x in a.lanes
  {
    x in b.lanes && LaneMoves(a.lanes[x], b.lanes[x])
  }

  predicate DelegationEvolves(a: Core, b: Core, d: DelegationId)
    requires d in a.delegations
  {
    d in b.delegations && DelegationMoves(a.delegations[d], b.delegations[d])
  }

  /** The cancellation of a live claim raises the counter of its lane. */
  predicate CancelFences(p: ClaimRow, q: ClaimRow, before: nat, after: nat) {
    Live(p) && q.status == Cancelled ==> before < after
  }

  predicate ClaimEvolves(a: Core, b: Core, l: LeaseId)
    requires l in a.claims
  {
    && l in b.claims && a.claims[l].lane in a.lanes && a.claims[l].lane in b.lanes
    && ClaimMoves(a.claims[l], b.claims[l], a.lanes[a.claims[l].lane].fence)
    && CancelFences(a.claims[l], b.claims[l], a.lanes[a.claims[l].lane].fence, b.lanes[a.claims[l].lane].fence)
  }

  /** A claim that appears later got a fence above every earlier one, for a delegation that was READY or unknown. */
  predicate ClaimAppears(a: Core, b: Core, l: LeaseId)
    requires l in b.claims
  {
    var r := b.claims[l];
    && (r.lane in a.lanes ==> r.token > a.lanes[r.lane].fence)
    && (r.delegation in a.delegations ==> a.delegations[r.delegation].state == Ready)
  }

  predicate LeaseLive(a: Core, l: LeaseId) { l in a.claims && Live(a.claims[l]) }

  predicate DispatchEvolves(a: Core, b: Core, d: DispatchId)
    requires d in a.outbox
  {
    d in b.outbox && OutboxMoves(a.outbox[d], b.outbox[d], LeaseLive(a, a.outbox[d].lease))
  }

  predicate DispatchAppears(a: Core, b: Core, d: DispatchId)
    requires d in b.outbox
  {
    b.outbox[d].lease !in a.claims
  }

  ghost predicate LanesEvolve(a: Core, b: Core) {
    forall x {:trigger LaneEvolves(a, b, x)} :: x in a.lanes ==> LaneEvolves(a, b, x)
  }

  ghost predicate DelegationsEvolve(a: Core, b: Core) {
    forall d {:trigger DelegationEvolves(a, b, d)} :: d in a.delegations ==> DelegationEvolves(a, b, d)
  }

  ghost predicate ClaimsEvolve(a: Core, b: Core) {
    forall l {:trigger ClaimEvolves(a, b, l)} :: l in a.claims ==> ClaimEvolves(a, b, l)
  }

  ghost predicate ClaimsAppear(a: Core, b: Core) {
    forall l {:trigger ClaimAppears(a, b, l)} :: l in b.claims && l !in a.claims ==> ClaimAppears(a, b, l)
  }

  ghost predicate OutboxEvolves(a: Core, b: Core) {
    && (forall d {:trigger DispatchEvolves(a, b, d)} :: d in a.outbox ==> DispatchEvolves(a, b, d))
    && (forall d {:trigger DispatchAppears(a, b, d)} :: d in b.outbox && d !in a.outbox ==> DispatchAppears(a, b, d))
  }

  ghost predicate Evolves(a: Core, b: Core) {
    && a.events <= b.events
    && LanesEvolve(a, b) && DelegationsEvolve(a, b) && ClaimsEvolve(a, b) && ClaimsAppear(a, b) && OutboxEvolves(a, b)
  }

  lemma EvolvesReflexive(a: Core)
    requires Consistent(a)
    ensures Evolves(a, a)
  {
    forall l | l in a.claims ensures ClaimEvolves(a, a, l) { assert ClaimOk(a, l); }
  }

  lemma ClaimEvolvesTwice(a: Core, b: Core, c: Core, l: LeaseId)
    requires l in a.claims && ClaimEvolves(a, b, l) && ClaimEvolves(b, c, l) && LaneEvolves(a, b, a.claims[l].lane)
    requires LaneEvolves(b, c, a.claims[l].lane) && ClaimOk(a, l) && ClaimOk(b, l)
    ensures ClaimEvolves(a, c, l)
  { }

  lemma ClaimAppearsTwice(a: Core, b: Core, c: Core, l: LeaseId)
    requires Consistent(b) && Evolves(a, b) && Evolves(b, c) && l in c.claims && l !in a.claims
    ensures ClaimAppears(a, c, l)
  {
    if l in b.claims { assert ClaimAppears(a, b, l) && ClaimEvolves(b, c, l) && ClaimOk(b, l); }
    else {
      var r := c.claims[l];
      assert ClaimAppears(b, c, l);
      assert r.lane in a.lanes ==> LaneEvolves(a, b, r.lane);
      assert r.delegation in a.delegations ==> DelegationEvolves(a, b, r.delegation);
    }
  }

  lemma ClaimsKept(a: Core, b: Core)
    requires ClaimsEvolve(a, b)
    ensures a.claims.Keys <= b.claims.Keys
  {
    forall l | l in a.claims ensures l in b.claims { assert ClaimEvolves(a, b, l); }
  }

  lemma OutboxEvolvesTwice(a: Core, b: Core, c: Core)
    requires OutboxOk(a) && OutboxEvolves(a, b) && OutboxEvolves(b, c) && ClaimsEvolve(a, b)
    ensures OutboxEvolves(a, c)
  {
    forall d | d in a.outbox ensures DispatchEvolves(a, c, d) {
      assert OutboxRowOk(a, d) && ClaimEvolves(a, b, a.outbox[d].lease);
      assert DispatchEvolves(a, b, d) && DispatchEvolves(b, c, d);
    }
    forall d | d in c.outbox && d !in a.outbox ensures DispatchAppears(a, c, d) {
      if d in b.outbox { assert DispatchAppears(a, b, d) && DispatchEvolves(b, c, d); }
      else { ClaimsKept(a, b); assert DispatchAppears(b, c, d); }
    }
  }

  lemma EvolvesTransitive(a: Core, b: Core, c: Core)
    requires Consistent(a) && Consistent(b) && Evolves(a, b) && Evolves(b, c)
    ensures Evolves(a, c)
  {
    forall x | x in a.lanes ensures LaneEvolves(a, c, x) { assert LaneEvolves(a, b, x) && LaneEvolves(b, c, x); }
    forall d | d in a.delegations ensures DelegationEvolves(a, c, d) {
      assert DelegationEvolves(a, b, d) && DelegationEvolves(b, c, d);
    }
    forall l | l in a.claims ensures ClaimEvolves(a, c, l) {
      assert ClaimEvolves(a, b, l) && ClaimEvolves(b, c, l) && ClaimOk(a, l) && ClaimOk(b, l);
      assert LaneEvolves(a, b, a.claims[l].lane) && LaneEvolves(b, c, a.claims[l].lane);
      ClaimEvolvesTwice(a, b, c, l);
    }
    forall l | l in c.claims && l !in a.claims ensures ClaimAppears(a, c, l) { ClaimAppearsTwice(a, b, c, l); }
    OutboxEvolvesTwice(a, b, c);
  }

  // ---- A change around one claim ----

  /** Only the row of `lease` and the rows it refers to change, each in an allowed way. */
  ghost predicate Touches(c: Core, b: Core, lease: LeaseId) {
    && lease in c.claims && lease in b.claims && ClaimOk(c, lease)
    && var r := c.claims[lease];
    && r.delegation in b.delegations && r.dispatch in b.outbox && r.lane in b.lanes
    && b.claims == c.claims[lease := b.claims[lease]]
    && b.delegations == c.delegations[r.delegation := b.delegations[r.delegation]]
    && b.outbox == c.outbox[r.dispatch := b.outbox[r.dispatch]]
    && b.lanes == c.lanes[r.lane := b.lanes[r.lane]]
    && c.events <= b.events
    && ClaimOk(b, lease)
    && (Live(b.claims[lease]) ==> Live(r))
    && ClaimMoves(r, b.claims[lease], c.lanes[r.lane].fence)
    && DelegationMoves(c.delegations[r.delegation], b.delegations[r.delegation])
    && OutboxMoves(c.outbox[r.dispatch], b.outbox[r.dispatch], Live(r))
    && LaneMoves(c.lanes[r.lane], b.lanes[r.lane]) && c.lanes[r.lane].head == b.lanes[r.lane].head
    && CancelFences(r, b.claims[lease], c.lanes[r.lane].fence, b.lanes[r.lane].fence)
  }

  lemma TouchedClaims(c: Core, b: Core, lease: LeaseId)
    requires Consistent(c) && Touches(c, b, lease)
    ensures ClaimsOk(b)
  {
    forall l | l in b.claims ensures ClaimOk(b, l) {
      if l != lease {
        assert ClaimOk(c, l);
        assert c.claims[l].delegation != c.claims[lease].delegation;
        assert c.claims[l].dispatch != c.claims[lease].dispatch;
      }
    }
  }

  lemma StillHasClaim(c: Core, b: Core, d: DelegationId)
    requires HasClaimRow(c, d)
    requires forall l :: l in c.claims ==> l in b.claims && b.claims[l].delegation == c.claims[l].delegation
    ensures HasClaimRow(b, d)
  {
    var l :| l in c.claims && c.claims[l].delegation == d;
    assert l in b.claims && b.claims[l].delegation == d;
  }

  lemma TouchedDelegations(c: Core, b: Core, lease: LeaseId)
    requires Consistent(c) && Touches(c, b, lease)
    ensures DelegationsOk(b)
  {
    forall d | d in b.delegations ensures DelegationOk(b, d) {
      if d == c.claims[lease].delegation { assert b.claims[lease].delegation == d; }
      else {
        assert DelegationOk(c, d);
        if NeedsClaim(b.delegations[d].state) { StillHasClaim(c, b, d); }
      }
    }
  }

  lemma TouchedRest(c: Core, b: Core, lease: LeaseId)
    requires Consistent(c) && Touches(c, b, lease)
    ensures OutboxOk(b) && OneClaimEach(b) && OneLiveEach(b) && OneTokenEach(b)
  {
    forall d | d in b.outbox ensures OutboxRowOk(b, d) {
      if d != c.claims[lease].dispatch { assert OutboxRowOk(c, d); }
    }
    forall l | l in c.claims && l != lease && c.claims[l].lane == c.claims[lease].lane
      ensures b.claims[l].token != b.claims[lease].token
    { assert ClaimOk(c, l); }
  }

  lemma TouchKeeps(c: Core, b: Core, lease: LeaseId)
    requires Consistent(c) && Touches(c, b, lease)
    ensures Consistent(b)
  {
    TouchedClaims(c, b, lease);
    TouchedDelegations(c, b, lease);
    TouchedRest(c, b, lease);
  }

  lemma TouchEvolves(c: Core, b: Core, lease: LeaseId)
    requires Consistent(c) && Touches(c, b, lease)
    ensures Evolves(c, b)
  {
    forall l | l in c.claims ensures ClaimEvolves(c, b, l) { assert ClaimOk(c, l); }
    forall d | d in c.outbox ensures DispatchEvolves(c, b, d) { assert OutboxRowOk(c, d); }
  }

  // ---- The primitive changes ----

  predicate DelegationFits(c: Core, b: Core, d: DelegationId)
    requires d in b.delegations
  {
    && b.delegations[d].lane in b.lanes
    && (NeedsClaim(b.delegations[d].state) ==> d in c.delegations && NeedsClaim(c.delegations[d].state))
  }

  /** A change that leaves all claims and dispatches alone. */
  lemma ClaimFreeKeeps(c: Core, b: Core)
    requires Consistent(c) && b.claims == c.claims && b.outbox == c.outbox && c.events <= b.events
    requires LanesEvolve(c, b) && DelegationsEvolve(c, b) && ClaimsOk(b)
    requires forall d {:trigger DelegationFits(c, b, d)} :: d in b.delegations ==> DelegationFits(c, b, d)
    ensures Consistent(b) && Evolves(c, b)
  {
    forall l | l in c.claims ensures ClaimEvolves(c, b, l) { assert ClaimOk(c, l) && LaneEvolves(c, b, c.claims[l].lane); }
    forall d | d in b.delegations ensures DelegationOk(b, d) {
      assert DelegationFits(c, b, d);
      if NeedsClaim(b.delegations[d].state) { assert DelegationOk(c, d); SameClaimRows(c, b, d); }
    }
    forall d | d in c.outbox ensures OutboxRowOk(b, d) { assert OutboxRowOk(c, d); }
  }

  lemma SameClaimRows(c: Core, b: Core, d: DelegationId)
    requires c.claims == b.claims
    ensures HasClaimRow(c, d) == HasClaimRow(b, d)
  { }

  lemma NewLaneKeeps(c: Core, b: Core, lane: LaneId)
    requires Consistent(c) && lane !in c.lanes && lane in b.lanes && c.events <= b.events
    requires b == c.(lanes := c.lanes[lane := b.lanes[lane]], events := b.events)
    ensures Consistent(b) && Evolves(c, b)
  {
    forall l | l in b.claims ensures ClaimOk(b, l) { assert ClaimOk(c, l); }
    forall d | d in b.delegations ensures DelegationFits(c, b, d) { assert DelegationOk(c, d); }
    ClaimFreeKeeps(c, b);
  }

  lemma AddReadyKeeps(c: Core, lane: LaneId, d: DelegationId, row: DelegationRow)
    requires Consistent(c) && lane in c.lanes && row.lane == lane && row.state == Ready && d !in c.delegations
    ensures Consistent(AddReady(c, lane, d, row)) && Evolves(c, AddReady(c, lane, d, row))
  {
    var b := AddReady(c, lane, d, row);
    forall l | l in b.claims ensures ClaimOk(b, l) { assert ClaimOk(c, l); }
    forall x | x in b.delegations ensures DelegationFits(c, b, x) { if x != d { assert DelegationOk(c, x); } }
    ClaimFreeKeeps(c, b);
  }

  lemma LogKeeps(c: Core, more: seq<Event>)
    requires Consistent(c)
    ensures Consistent(c.(events := c.events + more)) && Evolves(c, c.(events := c.events + more))
  {
    var b := c.(events := c.events + more);
    forall l | l in b.claims ensures ClaimOk(b, l) { assert ClaimOk(c, l); }
    forall d | d in b.delegations ensures DelegationFits(c, b, d) { assert DelegationOk(c, d); }
    ClaimFreeKeeps(c, b);
  }

  lemma MoveHeadKeeps(c: Core, lane: LaneId, head: nat, fence: nat, now: int)
    requires Consistent(c) && lane in c.lanes && !LaneBusy(c, lane) && fence > c.lanes[lane].fence
    ensures Consistent(MoveHead(c, lane, head, fence, now)) && Evolves(c, MoveHead(c, lane, head, fence, now))
  {
    var b := MoveHead(c, lane, head, fence, now);
    forall l | l in b.claims ensures ClaimOk(b, l) { assert ClaimOk(c, l); }
    forall d | d in b.delegations ensures DelegationFits(c, b, d) { assert DelegationOk(c, d); }
    ClaimFreeKeeps(c, b);
  }

  lemma GrantedClaims(c: Core, q: Request)
    requires Consistent(c) && Grantable(c, q) && Fresh(c, q)
    ensures ClaimsOk(Grant(c, q)) && OutboxOk(Grant(c, q))
    ensures forall l :: l in c.claims ==> c.claims[l].delegation != q.delegation
    ensures OneTokenEach(Grant(c, q))
  {
    var b := Grant(c, q);
    forall l | l in b.claims
      ensures ClaimOk(b, l) && (l in c.claims ==> c.claims[l].delegation != q.delegation)
      ensures l in c.claims && c.claims[l].lane == q.lane ==> c.claims[l].token < b.claims[q.lease].token
    {
      if l != q.lease { assert ClaimOk(c, l); }
    }
    forall d | d in b.outbox ensures OutboxRowOk(b, d) {
      if d != q.dispatch { assert OutboxRowOk(c, d); }
    }
  }

  lemma GrantKeeps(c: Core, q: Request)
    requires Consistent(c) && Grantable(c, q) && Fresh(c, q)
    ensures Consistent(Grant(c, q))
  {
    var b := Grant(c, q);
    GrantedClaims(c, q);
    forall d | d in b.delegations ensures DelegationOk(b, d) {
      assert DelegationOk(c, d);
      if d == q.delegation { assert b.claims[q.lease].delegation == d; }
      else if NeedsClaim(b.delegations[d].state) { StillHasClaim(c, b, d); }
    }
  }

  lemma GrantEvolves(c: Core, q: Request)
    requires Consistent(c) && Grantable(c, q) && Fresh(c, q)
    ensures Evolves(c, Grant(c, q))
  {
    var b := Grant(c, q);
    forall l | l in c.claims ensures ClaimEvolves(c, b, l) { assert ClaimOk(c, l); }
    forall d | d in c.outbox ensures DispatchEvolves(c, b, d) { assert OutboxRowOk(c, d); }
  }

  // ---- Idempotency keys ----

  /** The unique index on `claims.idempotency_key`. */
  ghost predicate KeysDiffer(c: Core) {
    forall l, m :: l in c.claims && m in c.claims && c.claims[l].key == c.claims[m].key ==> l == m
  }

  lemma KeysStayDifferent(a: Core, b: Core)
    requires KeysDiffer(a) && ClaimsEvolve(a, b) && b.claims.Keys == a.claims.Keys
    ensures KeysDiffer(b)
  {
    forall l, m | l in b.claims && m in b.claims && b.claims[l].key == b.claims[m].key ensures l == m {
      assert ClaimEvolves(a, b, l) && ClaimEvolves(a, b, m);
    }
  }

  lemma GrantedKeysDiffer(c: Core, q: Request)
    requires KeysDiffer(c) && !KeyUsed(c, q.key) && q.lane in c.lanes && Fresh(c, q)
    ensures KeysDiffer(Grant(c, q))
  { }
}
