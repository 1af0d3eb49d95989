/** Every supervisor transaction keeps the tables consistent and moves them forward only. */
module SupervisorSafety {
  import opened Wrappers
  import opened Tables
  import opened SupervisorSpec
  import opened SupervisorInvariants

  ghost predicate Forward(a: Core, b: Core) { Consistent(b) && Evolves(a, b) }

  predicate SameToken(a: Core, b: Core, l: LeaseId)
    requires l in a.claims
  {
    l in b.claims && b.claims[l].token == a.claims[l].token
  }

  /** No lease gets a new fence. */
  ghost predicate TokensKept(a: Core, b: Core) {
    forall l {:trigger SameToken(a, b, l)} :: l in a.claims ==> SameToken(a, b, l)
  }

  /** In addition, no lease appears. */
  ghost predicate Steady(a: Core, b: Core) { b.claims.Keys == a.claims.Keys && TokensKept(a, b) }

  /** What every transaction does that neither grants nor recovers a lease. */
  ghost predicate Calm(a: Core, b: Core) { Forward(a, b) && Steady(a, b) }

  lemma SteadyTwice(a: Core, b: Core, c: Core)
    requires Steady(a, b) && Steady(b, c)
    ensures Steady(a, c)
  {
    forall l | l in a.claims ensures SameToken(a, c, l) { assert SameToken(a, b, l) && SameToken(b, c, l); }
  }

  lemma CalmTwice(a: Core, b: Core, c: Core)
    requires Consistent(a) && Calm(a, b) && Calm(b, c)
    ensures Calm(a, c)
  { ForwardTwice(a, b, c); SteadyTwice(a, b, c); }

  lemma ForwardTwice(a: Core, b: Core, c: Core)
    requires Consistent(a) && Forward(a, b) && Forward(b, c)
    ensures Forward(a, c)
  { EvolvesTransitive(a, b, c); }

  lemma CalmSame(c: Core)
    requires Consistent(c)
    ensures Calm(c, c)
  { EvolvesReflexive(c); }

  lemma Touched(c: Core, b: Core, lease: LeaseId)
    requires Consistent(c) && Touches(c, b, lease) && b.claims[lease].token == c.claims[lease].token
    ensures Calm(c, b)
  { TouchKeeps(c, b, lease); TouchEvolves(c, b, lease); }

  lemma MarkDispatchedCalm(c: Core, d: DispatchId, run: RunId, now: int)
    requires Consistent(c) && MarkDispatched(c, d, run, now).Ok?
    ensures Calm(c, MarkDispatched(c, d, run, now).value)
  {
    var lease := c.outbox[d].lease;
    assert OutboxRowOk(c, d);
    assert ClaimOk(c, lease);
    if c.outbox[d].run.Some? { CalmSame(c); }
    else {
      assert c.outbox[d].run.None? && Live(c.claims[lease]);
      Touched(c, MarkDispatched(c, d, run, now).value, lease);
    }
  }

  lemma DispatchFailedCalm(c: Core, d: DispatchId, error: nat, budget: int, failure: nat, now: int)
    requires Consistent(c) && DispatchFailed(c, d, error, budget, failure, now).Ok?
    ensures Calm(c, DispatchFailed(c, d, error, budget, failure, now).value.0)
  {
    var lease := c.outbox[d].lease;
    assert OutboxRowOk(c, d);
    assert ClaimOk(c, lease);
    if FindFailure(c.events, 0, failure) < |c.events| { CalmSame(c); }
    else { Touched(c, DispatchFailed(c, d, error, budget, failure, now).value.0, lease); }
  }

  lemma AwaitEvaluationCalm(c: Core, lease: LeaseId, token: int, digest: nat, candidate: nat, timeout: int, now: int)
    requires Consistent(c) && AwaitEvaluation(c, lease, token, digest, candidate, timeout, now).Ok?
    ensures Calm(c, AwaitEvaluation(c, lease, token, digest, candidate, timeout, now).value)
  {
    assert ClaimOk(c, lease);
    if !Live(c.claims[lease]) { CalmSame(c); }
    else { Touched(c, AwaitEvaluation(c, lease, token, digest, candidate, timeout, now).value, lease); }
  }

  lemma EvaluatorVerdictCalm(c: Core, lease: LeaseId, token: int, v: Doc, now: int)
    requires Consistent(c) && EvaluatorVerdict(c, lease, token, v, now).Ok?
    ensures Calm(c, EvaluatorVerdict(c, lease, token, v, now).value)
  {
    if FindVerdict(c.events, 0, v.id) < |c.events| { CalmSame(c); }
    else {
      assert ClaimOk(c, lease);
      Touched(c, EvaluatorVerdict(c, lease, token, v, now).value, lease);
    }
  }

  // ---- When a transaction is accepted, as its caller sees it ----

  /** A lane belongs to one owner path and control reference. */
  predicate AcceptsLane(c: Core, lane: LaneId, owner: nat, ref: nat) {
    lane in c.lanes ==> c.lanes[lane].ownerPath == owner && c.lanes[lane].controlRef == ref
  }

  /** Nothing of the lane is open: no live lease, no candidate before its evaluator, no READY work. */
  ghost predicate LaneCleared(c: Core, lane: LaneId) {
    && !LaneBusy(c, lane) && !LaneInValidation(c, lane)
    && forall d :: d in c.delegations && c.delegations[d].lane == lane ==> c.delegations[d].state != Ready
  }

  /** The lane has this head, and if it had not before, nothing that was open under the old head is left. */
  ghost predicate HeadTaken(a: Core, b: Core, lane: LaneId, head: nat) {
    && lane in b.lanes && b.lanes[lane].head == head
    && (lane !in a.lanes || a.lanes[lane].head != head ==> LaneCleared(b, lane))
  }

  /** No lease of the lane is live, and none of its work is with an evaluator. */
  ghost predicate LaneIdle(c: Core, lane: LaneId) {
    && (forall l :: l in c.claims && c.claims[l].lane == lane ==> !Live(c.claims[l]))
    && (forall d :: d in c.delegations && c.delegations[d].lane == lane ==> c.delegations[d].state != Validating)
  }

  /** Work is bound on an idle lane at its current head, and an id that is known only as the same READY work. */
  ghost predicate AcceptsWork(c: Core, lane: LaneId, d: DelegationId, objective: nat, head: nat) {
    && lane in c.lanes && c.lanes[lane].head == head && LaneIdle(c, lane)
    && (d in c.delegations ==> SameWork(c, lane, d, objective, head))
  }

  /** The delegation is this work, and READY. */
  predicate SameWork(c: Core, lane: LaneId, d: DelegationId, objective: nat, head: nat) {
    && d in c.delegations && c.delegations[d].lane == lane && c.delegations[d].objective == objective
    && c.delegations[d].head == head && c.delegations[d].state == Ready
  }

  lemma WorkAccepted(c: Core, lane: LaneId, d: DelegationId, objective: nat, head: nat, evaluated: bool, now: int)
    ensures var r := BindReady(c, lane, d, objective, head, evaluated, now);
            && (r.Ok? <==> AcceptsWork(c, lane, d, objective, head))
            && (r.Ok? ==> SameWork(r.value, lane, d, objective, head) && r.value.claims == c.claims && r.value.outbox == c.outbox)
            && (r.Ok? ==> forall x :: x in c.delegations ==> x in r.value.delegations && r.value.delegations[x] == c.delegations[x])
  { }

  /** A heartbeat leaves the worker live for as long as its lease says, and touches nothing but its claim. */
  predicate BeatsOnly(a: Core, b: Core, lease: LeaseId, token: int, expires: Option<int>, now: int)
    requires lease in a.claims
  {
    && Authority(b, lease, token) && b.claims.Keys == a.claims.Keys
    && var until := if expires.Some? then expires.value else a.claims[lease].expiresAt;
    && b.claims[lease] == a.claims[lease].(heartbeatAt := now, status := Running, expiresAt := until)
    && (forall l :: l in a.claims && l != lease ==> b.claims[l] == a.claims[l])
    && b.lanes == a.lanes && b.delegations == a.delegations && b.outbox == a.outbox
    && |b.events| == |a.events| + 1 && a.events <= b.events
    && b.events[|a.events|].lease == Some(lease) && b.events[|a.events|].at == now
  }

  lemma BeatAccepted(c: Core, lease: LeaseId, token: int, expires: Option<int>, kind: EventKind, now: int)
    ensures var r := Beat(c, lease, token, expires, kind, now);
            && (r.Ok? <==> LiveWorker(c, lease, token, now))
            && (r.Ok? ==> BeatsOnly(c, r.value, lease, token, expires, now))
  { }

  /** The run of a live lease is acknowledged once, and again by the same run at any time. */
  predicate AcceptsRun(c: Core, d: DispatchId, run: RunId) {
    d in c.outbox && (c.outbox[d].run == Some(run) || (c.outbox[d].run.None? && LeaseLive(c, c.outbox[d].lease)))
  }

  lemma RunAccepted(c: Core, d: DispatchId, run: RunId, now: int)
    requires Consistent(c)
    ensures MarkDispatched(c, d, run, now).Ok? <==> AcceptsRun(c, d, run)
  { }

  /** The verdict with this id was recorded before, for this lease and with the same content. */
  ghost predicate Recorded(c: Core, lease: LeaseId, v: Doc)
    requires v.VerdictDoc?
  {
    var k := FindVerdict(c.events, 0, v.id);
    k < |c.events| && c.events[k].lease == Some(lease) && c.events[k].doc == v
  }

  ghost predicate IdIsNew(c: Core, v: Doc)
    requires v.VerdictDoc?
  {
    forall e :: e in c.events && IsVerdict(e) ==> e.doc.id != v.id
  }

  /** The candidate of the lease waits for exactly this verdict: handed off with this digest by another run, still in
      time, not cancelled, and with nobody on its lane since. */
  predicate AwaitsVerdict(c: Core, lease: LeaseId, token: int, v: Doc, now: int)
    requires v.VerdictDoc?
  {
    && lease in c.claims
    && var r := c.claims[lease];
    && r.status == Validating && token == r.token && r.lane in c.lanes && r.delegation in c.delegations && r.reason.HandoffDoc?
    && c.delegations[r.delegation].state != Cancelled
    && c.lanes[r.lane].head == r.head && c.lanes[r.lane].fence == r.token
    && r.reason.digest == v.digest && r.reason.worker != v.evaluator && now < r.reason.deadline
  }

  lemma VerdictAccepted(c: Core, lease: LeaseId, token: int, v: Doc, now: int)
    requires Consistent(c)
    ensures EvaluatorVerdict(c, lease, token, v, now).Ok? <==>
              v.VerdictDoc? && (Recorded(c, lease, v) || (IdIsNew(c, v) && AwaitsVerdict(c, lease, token, v, now)))
  {
    if lease in c.claims { assert ClaimOk(c, lease); }
    if v.VerdictDoc? {
      var k := FindVerdict(c.events, 0, v.id);
      if k < |c.events| { assert c.events[k] in c.events; }
    }
  }

  /** A live worker ends its lease, unless an evaluator has to complete the work; a supervisor ends it as STALE with the
      fence of the lease or of the lane; and an ending may be repeated exactly. */
  predicate AcceptsEnding(c: Core, lease: LeaseId, token: int, s: Status, payload: Doc, now: int) {
    && (s == Completed || s == Blocked || s == Stale) && lease in c.claims
    && var r := c.claims[lease];
    && r.lane in c.lanes && r.delegation in c.delegations
    && if !Live(r) then r.status == s && token == r.token && r.reason == payload
       else if s == Stale then token == r.token || token == c.lanes[r.lane].fence
       else LiveWorker(c, lease, token, now) && !(s == Completed && c.delegations[r.delegation].evaluated)
  }

  lemma EndingAccepted(c: Core, lease: LeaseId, token: int, s: Status, payload: Doc, now: int)
    requires Consistent(c)
    ensures TerminalTx(c, lease, token, s, payload, now).Ok? <==> AcceptsEnding(c, lease, token, s, payload, now)
  { if lease in c.claims { assert ClaimOk(c, lease); } }

  /** A live worker hands off a dispatched candidate, and may repeat the same handoff while it waits uncancelled. */
  predicate AcceptsHandoff(c: Core, lease: LeaseId, token: int, digest: nat, candidate: nat, timeout: int, now: int) {
    && 30 <= timeout <= 3600 && lease in c.claims
    && var r := c.claims[lease];
    && r.delegation in c.delegations && r.dispatch in c.outbox
    && if Live(r) then LiveWorker(c, lease, token, now) && c.outbox[r.dispatch].state == Dispatched && c.outbox[r.dispatch].run.Some?
       else r.status == Validating && c.delegations[r.delegation].state != Cancelled && token == r.token
            && r.reason.HandoffDoc? && r.reason.digest == digest && r.reason.candidate == candidate && r.reason.timeout == timeout
            && c.outbox[r.dispatch].run == Some(r.reason.worker)
  }

  lemma HandoffAccepted(c: Core, lease: LeaseId, token: int, digest: nat, candidate: nat, timeout: int, now: int)
    requires Consistent(c)
    ensures AwaitEvaluation(c, lease, token, digest, candidate, timeout, now).Ok?
            <==> AcceptsHandoff(c, lease, token, digest, candidate, timeout, now)
  { if lease in c.claims { assert ClaimOk(c, lease); } }
}
