/** What the transactions of the store do, row by row, as the design describes it: which rows change, to what, and that no
    other row does. */
module SupervisorEffects {
  import opened Wrappers
  import opened Tables
  import opened SupervisorSpec
  import opened SupervisorInvariants
  import opened SupervisorSafety
  import opened StoreSteps

  // ---- The rows of one lease ----

  /** Rows that do not belong to the lease are as before. */
  ghost predicate Elsewhere(a: Core, b: Core, l: LeaseId)
    requires l in a.claims
  {
    var r := a.claims[l];
    && b.claims.Keys == a.claims.Keys && b.delegations.Keys == a.delegations.Keys
    && b.outbox.Keys == a.outbox.Keys && b.lanes.Keys == a.lanes.Keys
    && (forall x :: x in a.claims && x != l ==> b.claims[x] == a.claims[x])
    && (forall x :: x in a.delegations && x != r.delegation ==> b.delegations[x] == a.delegations[x])
    && (forall x :: x in a.outbox && x != r.dispatch ==> b.outbox[x] == a.outbox[x])
    && (forall x :: x in a.lanes && x != r.lane ==> b.lanes[x] == a.lanes[x])
  }

  predicate ClaimEnds(a: Core, b: Core, l: LeaseId, s: Status, released: Option<int>, reason: Doc)
    requires l in a.claims
  {
    l in b.claims && b.claims[l] == a.claims[l].(status := s, released := released, reason := reason)
  }

  predicate WorkIs(a: Core, b: Core, l: LeaseId, s: Status)
    requires l in a.claims
  {
    var d := a.claims[l].delegation;
    d in a.delegations && d in b.delegations && b.delegations[d] == a.delegations[d].(state := s)
  }

  predicate DispatchIs(a: Core, b: Core, l: LeaseId, s: OutboxState)
    requires l in a.claims
  {
    var d := a.claims[l].dispatch;
    d in a.outbox && d in b.outbox && b.outbox[d] == a.outbox[d].(state := s)
  }

  /** The lane is free for reconciliation, and its counter has grown by `bump`. */
  predicate LaneFreed(a: Core, b: Core, l: LeaseId, bump: nat)
    requires l in a.claims
  {
    var x := a.claims[l].lane;
    && x in a.lanes && x in b.lanes
    && b.lanes[x] == a.lanes[x].(fence := a.lanes[x].fence + bump, state := Reconcile, current := None)
  }

  /** The dispatch of a lease that its worker does not end: an acknowledged run is told to stop, a dispatch that nobody took
      up is withdrawn, and any other keeps its state. */
  predicate RunStops(a: Core, b: Core, l: LeaseId)
    requires l in a.claims && a.claims[l].dispatch in a.outbox
  {
    var o := a.outbox[a.claims[l].dispatch];
    && (o.state == Dispatched && o.run.Some? ==> DispatchIs(a, b, l, CancelRequested))
    && (o.state == Pending || o.state == RetryWait ==> DispatchIs(a, b, l, OutCancelled))
    && (!(o.state == Dispatched && o.run.Some?) && o.state != Pending && o.state != RetryWait ==> DispatchIs(a, b, l, o.state))
  }

  /** One event about the lease is added to the log. */
  predicate LogsLease(a: Core, b: Core, l: LeaseId, now: int, kind: EventKind, doc: Doc)
    requires l in a.claims
  {
    && |b.events| == |a.events| + 1 && b.events[..|a.events|] == a.events
    && var e := b.events[|a.events|];
    && e.at == now && e.kind == kind && e.lease == Some(l) && e.lane == a.claims[l].lane && e.dispatch == Some(a.claims[l].dispatch)
    && e.delegation == Some(a.claims[l].delegation) && e.doc == doc
  }

  // ---- claim_ready ----

  predicate HoldsKey(c: Core, l: LeaseId, key: nat) { l in c.claims && c.claims[l].key == key }

  predicate IsFor(r: ClaimRow, lane: LaneId, d: DelegationId, objective: nat, head: nat) {
    r.lane == lane && r.delegation == d && r.objective == objective && r.head == head
  }

  /** Work that may be leased now: exactly this objective, READY, on its lane at the current head, where no lease is live;
      and the ids of lease and dispatch are new. */
  ghost predicate Leasable(
    c: Core, lane: LaneId, d: DelegationId, objective: nat, head: nat, lease: LeaseId, dispatch: DispatchId)
  {
    && lane in c.lanes && c.lanes[lane].head == head && (forall l :: l in c.claims && c.claims[l].lane == lane ==> !Live(c.claims[l]))
    && d in c.delegations && c.delegations[d].lane == lane && c.delegations[d].objective == objective
    && c.delegations[d].head == head && c.delegations[d].state == Ready && lease !in c.claims && dispatch !in c.outbox
  }

  /** A claim is accepted inside the shift for 30 to 3600 seconds: with a used key as a repetition of the same claim, with a
      new one for leasable work that the scheduler does not guard. */
  ghost predicate AcceptsClaim(c: Core, q: Request, shiftOpen: bool, queued: set<DelegationId>) {
    && shiftOpen && 30 <= q.ttl <= 3600
    && (forall l :: HoldsKey(c, l, q.key) ==> IsFor(c.claims[l], q.lane, q.delegation, q.objective, q.head))
    && ((forall l :: !HoldsKey(c, l, q.key)) ==>
          Leasable(c, q.lane, q.delegation, q.objective, q.head, q.lease, q.dispatch) && q.delegation !in queued)
  }

  lemma ClaimAccepted(c: Core, q: Request, shiftOpen: bool, queued: set<DelegationId>)
    requires KeysDiffer(c)
    ensures ClaimReady(c, q, shiftOpen, queued).Ok? <==> AcceptsClaim(c, q, shiftOpen, queued)
  {
    if KeyUsed(c, q.key) { assert HoldsKey(c, HolderOf(c, q.key), q.key); }
    else { forall l ensures !HoldsKey(c, l, q.key) { } }
  }

  /** A lease is granted: the next fence of the lane, until `now + ttl`, with a dispatch of the given kind and payload. */
  ghost predicate GrantedTo(a: Core, b: Core, q: Request) {
    && q.lane in a.lanes && q.delegation in a.delegations && q.lease !in a.claims && q.dispatch !in a.outbox
    && b.claims.Keys == a.claims.Keys + {q.lease} && b.outbox.Keys == a.outbox.Keys + {q.dispatch}
    && b.delegations.Keys == a.delegations.Keys && b.lanes.Keys == a.lanes.Keys
    && (forall x :: x in a.claims ==> b.claims[x] == a.claims[x])
    && (forall x :: x in a.outbox ==> b.outbox[x] == a.outbox[x])
    && (forall x :: x in a.delegations && x != q.delegation ==> b.delegations[x] == a.delegations[x])
    && (forall x :: x in a.lanes && x != q.lane ==> b.lanes[x] == a.lanes[x])
    && b.delegations[q.delegation] == a.delegations[q.delegation].(state := Claimed)
    && var fence := a.lanes[q.lane].fence + 1;
    && b.lanes[q.lane] == a.lanes[q.lane].(fence := fence, state := HasClaim, current := Some(q.delegation))
    && LeaseFor(b.claims[q.lease], q, fence)
    && var o := b.outbox[q.dispatch];
    && o.lane == q.lane && o.lease == q.lease && o.key == q.key && o.token == fence && o.kind == q.kind && o.payload == q.payload
    && o.state == Pending && o.attempt == 0 && o.run.None?
    && |b.events| == |a.events| + 2 && a.events <= b.events
    && LogsGrant(b.events[|a.events|], LeaseGranted, q, fence) && LogsGrant(b.events[|a.events| + 1], DispatchIntent, q, fence)
  }

  predicate LogsGrant(e: Event, kind: EventKind, q: Request, fence: nat) {
    && e.kind == kind && e.at == q.now && e.lane == q.lane && e.delegation == Some(q.delegation) && e.lease == Some(q.lease)
    && e.dispatch == Some(q.dispatch) && e.token == fence
  }

  predicate LeaseFor(r: ClaimRow, q: Request, fence: nat) {
    && r.lane == q.lane && r.delegation == q.delegation && r.objective == q.objective && r.head == q.head && r.key == q.key
    && r.dispatch == q.dispatch && r.token == fence && r.status == Claimed && Live(r) && r.reason == NoDoc
    && r.claimedAt == q.now && r.heartbeatAt == q.now && r.expiresAt == q.now + q.ttl
  }

  lemma GrantWrites(c: Core, q: Request)
    requires Grantable(c, q) && Fresh(c, q)
    ensures GrantedTo(c, Grant(c, q), q)
  { }

  // ---- register_lane, bind_ready ----

  /** New READY work: the row says whether an evaluator has to complete it, and the lane shows it. */
  ghost predicate WorkAdded(a: Core, b: Core, lane: LaneId, d: DelegationId, row: DelegationRow) {
    && lane in a.lanes && d !in a.delegations && b.claims == a.claims && b.outbox == a.outbox
    && b.delegations.Keys == a.delegations.Keys + {d} && b.delegations[d] == row
    && (forall x :: x in a.delegations ==> b.delegations[x] == a.delegations[x])
    && b.lanes.Keys == a.lanes.Keys && (forall x :: x in a.lanes && x != lane ==> b.lanes[x] == a.lanes[x])
    && b.lanes[lane] == a.lanes[lane].(state := HasReady, current := Some(d))
  }

  /** The work is bound already and nothing changes, or it is added. */
  ghost predicate WorkBound(a: Core, b: Core, lane: LaneId, d: DelegationId, objective: nat, head: nat, evaluated: bool) {
    if d in a.delegations then b == a
    else
      exists row: DelegationRow ::
        && WorkAdded(a, b, lane, d, row) && row.lane == lane && row.objective == objective && row.head == head
        && row.state == Ready && row.evaluated == evaluated
  }

  lemma BindWrites(c: Core, lane: LaneId, d: DelegationId, objective: nat, head: nat, evaluated: bool, now: int)
    requires BindReady(c, lane, d, objective, head, evaluated, now).Ok?
    ensures WorkBound(c, BindReady(c, lane, d, objective, head, evaluated, now).value, lane, d, objective, head, evaluated)
  {
    var b := BindReady(c, lane, d, objective, head, evaluated, now).value;
    if d !in c.delegations { assert WorkAdded(c, b, lane, d, b.delegations[d]); }
  }

  // ---- mark_dispatched, dispatch_failed ----

  /** Nothing but the row of the dispatch changes, and in it nothing but state, attempt and run. */
  ghost predicate DispatchRow(a: Core, b: Core, d: DispatchId, s: OutboxState, attempt: nat, run: Option<RunId>) {
    && d in a.outbox && b.lanes == a.lanes && b.delegations == a.delegations && b.claims == a.claims
    && b.outbox.Keys == a.outbox.Keys && (forall x :: x in a.outbox && x != d ==> b.outbox[x] == a.outbox[x])
    && b.outbox[d] == a.outbox[d].(state := s, attempt := attempt, run := run)
  }

  /** The run is recorded, once. */
  ghost predicate RunRecorded(a: Core, b: Core, d: DispatchId, run: RunId, now: int) {
    && d in a.outbox
    && if a.outbox[d].run.Some? then b == a
       else
         && DispatchRow(a, b, d, Dispatched, a.outbox[d].attempt + 1, Some(run))
         && a.outbox[d].lease in a.claims && LogsLease(a, b, a.outbox[d].lease, now, RunDispatched, NoDoc)
  }

  lemma RunWrites(c: Core, d: DispatchId, run: RunId, now: int)
    requires Consistent(c) && MarkDispatched(c, d, run, now).Ok?
    ensures RunRecorded(c, MarkDispatched(c, d, run, now).value, d, run, now)
  {
    assert OutboxRowOk(c, d);
    if c.outbox[d].lease in c.claims { assert ClaimOk(c, c.outbox[d].lease); }
  }

  /** How long a failed dispatch waits: five minutes before a probe of an open circuit, otherwise ten seconds after the first
      failure and twice that after each further one, at most a minute. */
  predicate WaitsUntil(at: int, now: int, attempt: nat, open: bool) {
    && (open ==> at == now + 300)
    && (!open && attempt == 1 ==> at == now + 10)
    && (!open && attempt == 2 ==> at == now + 20)
    && (!open ==> now < at <= now + 60)
  }

  /** A new failure counts one attempt more, and opens the circuit exactly when the budget of the caller is spent. */
  ghost predicate FailureCounted(a: Core, b: Core, d: DispatchId, budget: int, now: int, answer: Answer) {
    && d in a.outbox && answer.attempt == a.outbox[d].attempt + 1
    && (answer.open <==> a.outbox[d].attempt + 1 >= budget)
    && DispatchRow(a, b, d, if answer.open then CircuitOpen else RetryWait, a.outbox[d].attempt + 1, None)
    && WaitsUntil(answer.nextAt, now, a.outbox[d].attempt + 1, answer.open)
  }

  /** The failure is in the log, with the answer that its first callback got. */
  ghost predicate FailureLogged(c: Core, d: DispatchId, error: nat, budget: int, failure: nat, answer: Answer) {
    exists k: nat :: k < |c.events| && FailureIs(c.events[k], d, error, budget, failure, answer)
  }

  predicate FailureIs(e: Event, d: DispatchId, error: nat, budget: int, failure: nat, answer: Answer) {
    && e.dispatch == Some(d) && e.kind == (if answer.open then CircuitOpened else RetryLogged)
    && e.doc == FailureDoc(failure, error, budget, answer.attempt, answer.nextAt)
  }

  ghost predicate FailureIsNew(c: Core, failure: nat) {
    forall e :: e in c.events && (e.kind == RetryLogged || e.kind == CircuitOpened) && e.doc.FailureDoc? ==> e.doc.failure != failure
  }

  /** The failure with this id was logged first at position `k`. */
  ghost predicate FirstLogged(c: Core, k: nat, failure: nat) {
    && k < |c.events| && IsFailure(c.events[k]) && c.events[k].doc.failure == failure
    && forall j :: 0 <= j < k && IsFailure(c.events[j]) ==> c.events[j].doc.failure != failure
  }

  /** A failed dispatch is reported within a budget of one to three: again exactly as before, or anew for a dispatch that no
      run has taken up and whose circuit is closed. */
  ghost predicate AcceptsFailure(c: Core, d: DispatchId, error: nat, budget: int, failure: nat) {
    && 1 <= budget <= 3 && d in c.outbox
    && (forall k: nat :: FirstLogged(c, k, failure) ==>
          c.events[k].dispatch == Some(d) && c.events[k].doc.error == error && c.events[k].doc.budget == budget)
    && (FailureIsNew(c, failure) ==> c.outbox[d].run.None? && (c.outbox[d].state == Pending || c.outbox[d].state == RetryWait))
  }

  lemma FailureAccepted(c: Core, d: DispatchId, error: nat, budget: int, failure: nat, now: int)
    ensures DispatchFailed(c, d, error, budget, failure, now).Ok? <==> AcceptsFailure(c, d, error, budget, failure)
  {
    var k := FindFailure(c.events, 0, failure);
    if k < |c.events| {
      assert FirstLogged(c, k, failure) && c.events[k] in c.events;
      forall j: nat | FirstLogged(c, j, failure) ensures j == k { }
    }
  }

  lemma {:induction false} FirstWait(attempt: nat)
    ensures Pow2(attempt) >= 1
    decreases attempt
  { if attempt > 0 { FirstWait(attempt - 1); } }

  lemma FailureWrites(c: Core, d: DispatchId, error: nat, budget: int, failure: nat, now: int)
    requires DispatchFailed(c, d, error, budget, failure, now).Ok?
    ensures var r := DispatchFailed(c, d, error, budget, failure, now).value;
            && FailureLogged(r.0, d, error, budget, failure, r.1)
            && (if FailureIsNew(c, failure) then FailureCounted(c, r.0, d, budget, now, r.1) else r.0 == c)
  {
    var r := DispatchFailed(c, d, error, budget, failure, now).value;
    var k := FindFailure(c.events, 0, failure);
    if k < |c.events| {
      assert c.events[k] in c.events;
      assert FailureIs(r.0.events[k], d, error, budget, failure, r.1);
    } else {
      var attempt := c.outbox[d].attempt + 1;
      FirstWait(attempt);
      assert Pow2(0) == 1 && Pow2(1) == 2 * Pow2(0) && Pow2(2) == 2 * Pow2(1);
      assert FailureIs(r.0.events[|c.events|], d, error, budget, failure, r.1);
    }
  }

  // ---- await_evaluation, evaluator_verdict ----

  /** The candidate waits for its evaluator until `now + timeout`, and the lane is free. */
  ghost predicate HandsOff(a: Core, b: Core, l: LeaseId, digest: nat, candidate: nat, timeout: int, now: int) {
    && l in a.claims && a.claims[l].dispatch in a.outbox && a.outbox[a.claims[l].dispatch].run.Some? && Elsewhere(a, b, l)
    && var doc := HandoffDoc(digest, candidate, a.outbox[a.claims[l].dispatch].run.value, timeout, now + timeout);
    && ClaimEnds(a, b, l, Validating, Some(now), doc) && WorkIs(a, b, l, Validating) && DispatchIs(a, b, l, InValidation)
    && LaneFreed(a, b, l, 0) && LogsLease(a, b, l, now, ValidatingStarted, doc)
  }

  lemma HandoffWrites(c: Core, lease: LeaseId, token: int, digest: nat, candidate: nat, timeout: int, now: int)
    requires Consistent(c) && AwaitEvaluation(c, lease, token, digest, candidate, timeout, now).Ok?
    ensures var b := AwaitEvaluation(c, lease, token, digest, candidate, timeout, now).value;
            if LeaseLive(c, lease) then HandsOff(c, b, lease, digest, candidate, timeout, now) else b == c
  { assert ClaimOk(c, lease); }

  /** PASS completes the work and everything else blocks it; the claim keeps the verdict, and the lane is left alone. */
  ghost predicate VerdictEnds(a: Core, b: Core, l: LeaseId, v: Doc)
    requires v.VerdictDoc?
  {
    && l in a.claims && Elsewhere(a, b, l) && b.lanes == a.lanes
    && (v.verdict == Pass ==>
          ClaimEnds(a, b, l, Completed, a.claims[l].released, v) && WorkIs(a, b, l, Completed) && DispatchIs(a, b, l, OutCompleted))
    && (v.verdict != Pass ==>
          ClaimEnds(a, b, l, Blocked, a.claims[l].released, v) && WorkIs(a, b, l, Blocked) && DispatchIs(a, b, l, OutBlocked))
  }

  lemma VerdictWrites(c: Core, lease: LeaseId, token: int, v: Doc, now: int)
    requires Consistent(c) && EvaluatorVerdict(c, lease, token, v, now).Ok?
    ensures var b := EvaluatorVerdict(c, lease, token, v, now).value;
            Recorded(b, lease, v) && (if IdIsNew(c, v) then VerdictEnds(c, b, lease, v) else b == c)
  {
    var b := EvaluatorVerdict(c, lease, token, v, now).value;
    var k := FindVerdict(c.events, 0, v.id);
    if k < |c.events| { assert c.events[k] in c.events; }
    else {
      assert ClaimOk(c, lease);
      FoundAt(b.events, 0, v.id, |c.events|);
    }
  }

  lemma {:induction false} FoundAt(ev: seq<Event>, i: nat, id: nat, k: nat)
    requires i <= k < |ev| && IsVerdict(ev[k]) && ev[k].doc.id == id
    requires forall j :: i <= j < k ==> !(IsVerdict(ev[j]) && ev[j].doc.id == id)
    ensures FindVerdict(ev, i, id) == k
    decreases k - i
  { if i < k { FoundAt(ev, i + 1, id, k); } }

  // ---- terminal ----

  /** A live lease ends as its worker or the supervisor says; STALE tells its run to stop. */
  ghost predicate LeaseEnds(a: Core, b: Core, l: LeaseId, s: Status, payload: Doc, now: int) {
    && l in a.claims && a.claims[l].dispatch in a.outbox && Elsewhere(a, b, l)
    && ClaimEnds(a, b, l, s, Some(now), payload) && WorkIs(a, b, l, s) && LaneFreed(a, b, l, 0)
    && LogsLease(a, b, l, now, Terminal(s), payload)
    && var o := a.outbox[a.claims[l].dispatch];
    && (s == Stale ==> RunStops(a, b, l))
    && (s != Stale ==> DispatchIs(a, b, l, if o.state == Pending || o.state == RetryWait then OutCancelled else o.state))
  }

  lemma TerminalWrites(c: Core, lease: LeaseId, token: int, s: Status, payload: Doc, now: int)
    requires Consistent(c) && TerminalTx(c, lease, token, s, payload, now).Ok?
    ensures var b := TerminalTx(c, lease, token, s, payload, now).value;
            if LeaseLive(c, lease) then LeaseEnds(c, b, lease, s, payload, now) else b == c
  { assert ClaimOk(c, lease); }

  // ---- Loops: what becomes of the rows of one lease ----

  predicate SameRows(a: Core, b: Core, l: LeaseId)
    requires l in a.claims
  {
    var r := a.claims[l];
    && l in b.claims && b.claims[l] == r && r.delegation in a.delegations && r.dispatch in a.outbox
    && WorkIs(a, b, l, a.delegations[r.delegation].state) && DispatchIs(a, b, l, a.outbox[r.dispatch].state)
  }

  /** A supervisor ends the live lease as STALE. */
  predicate StaledLease(a: Core, b: Core, l: LeaseId, now: int, reason: Doc)
    requires l in a.claims
  {
    && a.claims[l].dispatch in a.outbox
    && ClaimEnds(a, b, l, Stale, Some(now), reason) && WorkIs(a, b, l, Stale) && RunStops(a, b, l)
  }

  /** The wait of the candidate ends as STALE. */
  predicate StaledWait(a: Core, b: Core, l: LeaseId, reason: Doc)
    requires l in a.claims
  {
    ClaimEnds(a, b, l, Stale, a.claims[l].released, reason) && DispatchIs(a, b, l, OutCancelled)
  }

  lemma ReleaseSpares(
    c: Core, lease: LeaseId, s: Status, out: OutboxState, bump: nat, kind: EventKind, reason: Doc, now: int, l: LeaseId)
    requires Consistent(c) && lease in c.claims && l in c.claims && l != lease
    ensures SameRows(c, Release(c, lease, s, out, bump, kind, reason, now), l)
  { assert ClaimOk(c, lease) && ClaimOk(c, l); }

  lemma RecoverOneRows(c: Core, lease: LeaseId, now: int, sla: int, l: LeaseId)
    requires Consistent(c) && LeaseLive(c, lease) && l in c.claims
    ensures var b := RecoverOne(c, lease, now, sla);
            if l == lease && (c.claims[l].expiresAt <= now || now - c.claims[l].heartbeatAt > sla)
            then StaledLease(c, b, l, now, OtherDoc(1)) else SameRows(c, b, l)
  {
    assert ClaimOk(c, lease) && ClaimOk(c, l);
    if l != lease && Expired(c.claims[lease], now, sla) {
      ReleaseSpares(c, lease, Stale, StaleOut(c, lease), 1, Terminal(Stale), OtherDoc(1), now, l);
    }
  }

  lemma RowsTwice(a: Core, b: Core, c: Core, l: LeaseId, now: int, reason: Doc)
    requires l in a.claims
    ensures SameRows(a, b, l) && SameRows(b, c, l) ==> SameRows(a, c, l)
    ensures SameRows(a, b, l) && StaledLease(b, c, l, now, reason) ==> StaledLease(a, c, l, now, reason)
    ensures StaledLease(a, b, l, now, reason) && SameRows(b, c, l) ==> StaledLease(a, c, l, now, reason)
  { }

  lemma {:induction false} RecoverLiveRows(c: Core, rows: seq<LeaseId>, now: int, sla: int, l: LeaseId)
    requires Consistent(c) && Distinct(rows) && AllLive(c, rows) && l in c.claims
    ensures var b := RecoverLive(c, rows, now, sla);
            if l in rows && (c.claims[l].expiresAt <= now || now - c.claims[l].heartbeatAt > sla)
            then StaledLease(c, b, l, now, OtherDoc(1)) else SameRows(c, b, l)
    decreases |rows|
  {
    if rows == [] { assert ClaimOk(c, l); }
    else {
      var c1 := RecoverOne(c, rows[0], now, sla);
      assert rows[0] in rows;
      RecoverOneRows(c, rows[0], now, sla, l);
      RecoverOneSound(c, rows[0], now, sla);
      RecoverOneTail(c, rows, now, sla);
      RecoverLiveRows(c1, rows[1..], now, sla, l);
      RowsTwice(c, c1, RecoverLive(c, rows, now, sla), l, now, OtherDoc(1));
    }
  }

  predicate LateWait(a: Core, b: Core, l: LeaseId, reason: Doc)
    requires l in a.claims
  {
    StaledWait(a, b, l, reason) && WorkIs(a, b, l, Stale)
  }

  lemma TimeoutOneRows(c: Core, lease: LeaseId, now: int, l: LeaseId)
    requires Consistent(c) && (lease in c.claims ==> c.claims[lease].status == Validating) && l in c.claims
    ensures var b := TimeoutOne(c, lease, now);
            if l == lease && c.claims[l].reason.HandoffDoc? && c.claims[l].reason.deadline <= now
            then LateWait(c, b, l, OtherDoc(2)) else SameRows(c, b, l)
  { assert (lease in c.claims ==> ClaimOk(c, lease)) && ClaimOk(c, l); }

  lemma LateTwice(a: Core, b: Core, c: Core, l: LeaseId, reason: Doc)
    requires l in a.claims
    ensures SameRows(a, b, l) && SameRows(b, c, l) ==> SameRows(a, c, l)
    ensures SameRows(a, b, l) && LateWait(b, c, l, reason) ==> LateWait(a, c, l, reason)
    ensures LateWait(a, b, l, reason) && SameRows(b, c, l) ==> LateWait(a, c, l, reason)
  { }

  lemma {:induction false} TimeoutAllRows(c: Core, rows: seq<LeaseId>, now: int, l: LeaseId)
    requires Consistent(c) && Distinct(rows) && AllWaiting(c, rows) && l in c.claims
    ensures var b := TimeoutAll(c, rows, now);
            if l in rows && c.claims[l].reason.HandoffDoc? && c.claims[l].reason.deadline <= now
            then LateWait(c, b, l, OtherDoc(2)) else SameRows(c, b, l)
    decreases |rows|
  {
    if rows == [] { assert ClaimOk(c, l); }
    else {
      var c1 := TimeoutOne(c, rows[0], now);
      assert rows[0] in rows;
      TimeoutOneRows(c, rows[0], now, l);
      TimeoutOneSafe(c, rows[0], now);
      TailRows(c, c1, rows);
      TimeoutAllRows(c1, rows[1..], now, l);
      LateTwice(c, c1, TimeoutAll(c, rows, now), l, OtherDoc(2));
    }
  }

  // ---- recover ----

  /** What recovery makes of a lease: an overdue live one is STALE and its run told to stop, a candidate whose evaluation is
      overdue is STALE and withdrawn, and any other is left alone. */
  predicate RecoveredLease(a: Core, b: Core, l: LeaseId, now: int, sla: int)
    requires l in a.claims
  {
    var r := a.claims[l];
    if Live(r) && (r.expiresAt <= now || now - r.heartbeatAt > sla) then StaledLease(a, b, l, now, OtherDoc(1))
    else if r.status == Validating && r.reason.HandoffDoc? && r.reason.deadline <= now then LateWait(a, b, l, OtherDoc(2))
    else SameRows(a, b, l)
  }

  lemma RecoverWrites(c: Core, now: int, sla: int, live: seq<LeaseId>, waiting: seq<LeaseId>, l: LeaseId)
    requires Consistent(c) && Recover(c, now, sla, live, waiting).Ok? && l in c.claims
    ensures RecoveredLease(c, Recover(c, now, sla, live, waiting).value, l, now, sla)
  {
    var c1 := RecoverLive(c, live, now, sla);
    RecoverLiveSound(c, live, now, sla);
    RecoverLiveRows(c, live, now, sla, l);
    TimeoutAllRows(c1, waiting, now, l);
    RowsTwice(c, c1, TimeoutAll(c1, waiting, now), l, now, OtherDoc(1));
    LateTwice(c, c1, TimeoutAll(c1, waiting, now), l, OtherDoc(2));
    assert ClaimOk(c, l) && ClaimOk(c1, l);
  }

  /** No row appears or goes, and work that was never claimed keeps its row. */
  ghost predicate UnclaimedKept(a: Core, b: Core) {
    && b.claims.Keys == a.claims.Keys && b.delegations.Keys == a.delegations.Keys
    && b.outbox.Keys == a.outbox.Keys && b.lanes.Keys == a.lanes.Keys
    && (forall l :: l in a.claims ==> b.claims[l].delegation == a.claims[l].delegation)
    && forall d {:trigger b.delegations[d]} :: d in a.delegations && !HasClaimRow(a, d) ==> b.delegations[d] == a.delegations[d]
  }

  lemma UnclaimedTwice(a: Core, b: Core, c: Core)
    requires UnclaimedKept(a, b) && UnclaimedKept(b, c)
    ensures UnclaimedKept(a, c)
  {
    forall d | d in a.delegations && !HasClaimRow(a, d) ensures c.delegations[d] == a.delegations[d] {
      assert b.delegations[d] == a.delegations[d];
      forall l | l in b.claims ensures b.claims[l].delegation != d { assert b.claims[l].delegation == a.claims[l].delegation; }
    }
  }

  lemma {:induction false} RecoverLiveUnclaimed(c: Core, rows: seq<LeaseId>, now: int, sla: int)
    ensures UnclaimedKept(c, RecoverLive(c, rows, now, sla))
    decreases |rows|
  {
    if rows != [] {
      var c1 := RecoverOne(c, rows[0], now, sla);
      RecoverLiveUnclaimed(c1, rows[1..], now, sla);
      UnclaimedTwice(c, c1, RecoverLive(c, rows, now, sla));
    }
  }

  lemma {:induction false} TimeoutAllUnclaimed(c: Core, rows: seq<LeaseId>, now: int)
    ensures UnclaimedKept(c, TimeoutAll(c, rows, now))
    decreases |rows|
  {
    if rows != [] {
      var c1 := TimeoutOne(c, rows[0], now);
      TimeoutAllUnclaimed(c1, rows[1..], now);
      UnclaimedTwice(c, c1, TimeoutAll(c, rows, now));
    }
  }

  // ---- recover: the lanes ----

  /** The lane is as before, or free under a higher counter. */
  predicate LaneRaised(a: Core, b: Core, x: LaneId, raised: bool)
    requires x in a.lanes
  {
    && x in b.lanes && b.lanes[x].ownerPath == a.lanes[x].ownerPath && b.lanes[x].controlRef == a.lanes[x].controlRef
    && b.lanes[x].head == a.lanes[x].head
    && if raised then b.lanes[x].fence > a.lanes[x].fence && b.lanes[x].state == Reconcile && b.lanes[x].current.None?
       else b.lanes[x] == a.lanes[x]
  }

  predicate RowOn(c: Core, l: LeaseId, x: LaneId) { l in c.claims && c.claims[l].lane == x }

  ghost predicate ExpiresOn(c: Core, rows: seq<LeaseId>, now: int, sla: int, x: LaneId) {
    exists l :: l in rows && RowOn(c, l, x) && Expired(c.claims[l], now, sla)
  }

  lemma {:induction false} RecoverLiveLane(c: Core, rows: seq<LeaseId>, now: int, sla: int, x: LaneId)
    requires Distinct(rows) && x in c.lanes
    ensures LaneRaised(c, RecoverLive(c, rows, now, sla), x, ExpiresOn(c, rows, now, sla, x))
    decreases |rows|
  {
    if rows != [] {
      var c1 := RecoverOne(c, rows[0], now, sla);
      RecoverLiveLane(c1, rows[1..], now, sla, x);
      forall l | l in rows[1..] ensures l in rows && l != rows[0] { }
      if ExpiresOn(c, rows, now, sla, x) && !(RowOn(c, rows[0], x) && Expired(c.claims[rows[0]], now, sla)) {
        var l :| l in rows && RowOn(c, l, x) && Expired(c.claims[l], now, sla);
        assert l in rows[1..] && RowOn(c1, l, x);
      }
      if ExpiresOn(c1, rows[1..], now, sla, x) {
        var l :| l in rows[1..] && RowOn(c1, l, x) && Expired(c1.claims[l], now, sla);
        assert l in rows && RowOn(c, l, x);
      }
      if RowOn(c, rows[0], x) && Expired(c.claims[rows[0]], now, sla) { assert ExpiresOn(c, rows, now, sla, x); }
    }
  }

  ghost predicate TimesOutOn(c: Core, rows: seq<LeaseId>, now: int, x: LaneId) {
    exists l :: l in rows && RowOn(c, l, x) && TimedOut(c.claims[l], now)
  }

  lemma TimesOutFirst(c: Core, rows: seq<LeaseId>, now: int, x: LaneId)
    requires Distinct(rows) && rows != []
    ensures TimesOutOn(c, rows, now, x) <==>
              || (RowOn(c, rows[0], x) && TimedOut(c.claims[rows[0]], now))
              || TimesOutOn(TimeoutOne(c, rows[0], now), rows[1..], now, x)
  {
    var c1 := TimeoutOne(c, rows[0], now);
    forall l | l in rows[1..] ensures l in rows && l != rows[0] { }
    if TimesOutOn(c, rows, now, x) && !(RowOn(c, rows[0], x) && TimedOut(c.claims[rows[0]], now)) {
      var l :| l in rows && RowOn(c, l, x) && TimedOut(c.claims[l], now);
      assert l in rows[1..] && RowOn(c1, l, x);
    }
    if TimesOutOn(c1, rows[1..], now, x) {
      var l :| l in rows[1..] && RowOn(c1, l, x) && TimedOut(c1.claims[l], now);
      assert l in rows && RowOn(c, l, x);
    }
  }

  lemma {:induction false} TimeoutAllLane(c: Core, rows: seq<LeaseId>, now: int, x: LaneId)
    requires Distinct(rows) && x in c.lanes
    ensures LaneRaised(c, TimeoutAll(c, rows, now), x, TimesOutOn(c, rows, now, x))
    decreases |rows|
  {
    if rows != [] {
      TimesOutFirst(c, rows, now, x);
      TimeoutAllLane(TimeoutOne(c, rows[0], now), rows[1..], now, x);
    }
  }

  /** A lease of the lane is overdue: it is live past its time or without a heartbeat, or waits for a late evaluator. */
  ghost predicate OverdueOn(c: Core, now: int, sla: int, x: LaneId) { exists l :: RowOn(c, l, x) && Overdue(c.claims[l], now, sla) }

  predicate Overdue(r: ClaimRow, now: int, sla: int) {
    || (Live(r) && (r.expiresAt <= now || now - r.heartbeatAt > sla))
    || (r.status == Validating && r.reason.HandoffDoc? && r.reason.deadline <= now)
  }

  /** All that recovery does. */
  ghost predicate RecoverEnds(a: Core, b: Core, now: int, sla: int) {
    && UnclaimedKept(a, b)
    && (forall l {:trigger RecoveredLease(a, b, l, now, sla)} :: l in a.claims ==> RecoveredLease(a, b, l, now, sla))
    && forall x {:trigger OverdueOn(a, now, sla, x)} :: x in a.lanes ==> LaneRaised(a, b, x, OverdueOn(a, now, sla, x))
  }

  lemma RecoverLane(c: Core, now: int, sla: int, live: seq<LeaseId>, waiting: seq<LeaseId>, x: LaneId)
    requires Consistent(c) && Recover(c, now, sla, live, waiting).Ok? && x in c.lanes
    ensures LaneRaised(c, Recover(c, now, sla, live, waiting).value, x, OverdueOn(c, now, sla, x))
  {
    var c1 := RecoverLive(c, live, now, sla);
    RecoverLiveLane(c, live, now, sla, x);
    TimeoutAllLane(c1, waiting, now, x);
    OverdueSplits(c, now, sla, live, waiting, x);
  }

  lemma OverdueFound(c: Core, now: int, sla: int, live: seq<LeaseId>, waiting: seq<LeaseId>, x: LaneId, l: LeaseId)
    requires Consistent(c) && Recover(c, now, sla, live, waiting).Ok? && RowOn(c, l, x) && Overdue(c.claims[l], now, sla)
    ensures ExpiresOn(c, live, now, sla, x) || TimesOutOn(RecoverLive(c, live, now, sla), waiting, now, x)
  {
    var c1 := RecoverLive(c, live, now, sla);
    assert ClaimOk(c, l);
    RecoverLiveRows(c, live, now, sla, l);
    if Live(c.claims[l]) { assert l in live && Expired(c.claims[l], now, sla); }
    else { assert l in waiting && RowOn(c1, l, x) && TimedOut(c1.claims[l], now); }
  }

  lemma LateWasLate(c: Core, now: int, sla: int, live: seq<LeaseId>, waiting: seq<LeaseId>, x: LaneId, l: LeaseId)
    requires Consistent(c) && Recover(c, now, sla, live, waiting).Ok? && l in waiting && RowOn(RecoverLive(c, live, now, sla), l, x)
    requires TimedOut(RecoverLive(c, live, now, sla).claims[l], now)
    ensures RowOn(c, l, x) && Overdue(c.claims[l], now, sla)
  {
    RecoverLiveSound(c, live, now, sla);
    RecoverLiveUnclaimed(c, live, now, sla);
    RecoverLiveRows(c, live, now, sla, l);
    assert ClaimOk(c, l) && ClaimOk(RecoverLive(c, live, now, sla), l);
  }

  lemma OverdueSplits(c: Core, now: int, sla: int, live: seq<LeaseId>, waiting: seq<LeaseId>, x: LaneId)
    requires Consistent(c) && Recover(c, now, sla, live, waiting).Ok?
    ensures OverdueOn(c, now, sla, x)
            <==> ExpiresOn(c, live, now, sla, x) || TimesOutOn(RecoverLive(c, live, now, sla), waiting, now, x)
  {
    var c1 := RecoverLive(c, live, now, sla);
    if OverdueOn(c, now, sla, x) {
      var l :| RowOn(c, l, x) && Overdue(c.claims[l], now, sla);
      OverdueFound(c, now, sla, live, waiting, x, l);
    }
    if ExpiresOn(c, live, now, sla, x) {
      var l :| l in live && RowOn(c, l, x) && Expired(c.claims[l], now, sla);
      assert RowOn(c, l, x) && Overdue(c.claims[l], now, sla);
    }
    if TimesOutOn(c1, waiting, now, x) {
      var l :| l in waiting && RowOn(c1, l, x) && TimedOut(c1.claims[l], now);
      LateWasLate(c, now, sla, live, waiting, x, l);
    }
  }

  lemma RecoverEffect(c: Core, now: int, sla: int, live: seq<LeaseId>, waiting: seq<LeaseId>)
    requires Consistent(c) && Recover(c, now, sla, live, waiting).Ok?
    ensures RecoverEnds(c, Recover(c, now, sla, live, waiting).value, now, sla)
  {
    var c1 := RecoverLive(c, live, now, sla);
    RecoverLiveUnclaimed(c, live, now, sla);
    TimeoutAllUnclaimed(c1, waiting, now);
    UnclaimedTwice(c, c1, TimeoutAll(c1, waiting, now));
    forall l | l in c.claims ensures RecoveredLease(c, Recover(c, now, sla, live, waiting).value, l, now, sla) {
      RecoverWrites(c, now, sla, live, waiting, l);
    }
    forall x | x in c.lanes ensures LaneRaised(c, Recover(c, now, sla, live, waiting).value, x, OverdueOn(c, now, sla, x)) {
      RecoverLane(c, now, sla, live, waiting, x);
    }
  }

  // ---- invalidate_head ----

  /** What a moved head makes of a lease: on the lane, a live one is STALE and its run told to stop, a waiting candidate is
      STALE and withdrawn; any other is left alone. */
  predicate HeadDrops(a: Core, b: Core, l: LeaseId, lane: LaneId, now: int)
    requires l in a.claims
  {
    var r := a.claims[l];
    if r.lane == lane && Live(r) then StaledLease(a, b, l, now, OtherDoc(0))
    else if r.lane == lane && r.status == Validating then
      && StaledWait(a, b, l, OtherDoc(0)) && r.delegation in a.delegations
      && WorkIs(a, b, l, if a.delegations[r.delegation].state == Validating then Stale else a.delegations[r.delegation].state)
    else SameRows(a, b, l)
  }

  lemma StaleWaitingRows(c: Core, lease: LeaseId, now: int, l: LeaseId)
    requires Consistent(c) && (lease in c.claims ==> c.claims[lease].status == Validating) && l in c.claims
    ensures var b := StaleWaiting(c, lease, now);
            if l == lease then
              && StaledWait(c, b, l, OtherDoc(0)) && c.claims[l].delegation in c.delegations
              && WorkIs(c, b, l, if c.delegations[c.claims[l].delegation].state == Validating then Stale
                                 else c.delegations[c.claims[l].delegation].state)
            else SameRows(c, b, l)
  { assert (lease in c.claims ==> ClaimOk(c, lease)) && ClaimOk(c, l); }

  /** The candidate of the list is staled; its delegation too unless it was cancelled. */
  predicate DroppedWait(a: Core, b: Core, l: LeaseId)
    requires l in a.claims
  {
    var d := a.claims[l].delegation;
    && StaledWait(a, b, l, OtherDoc(0)) && d in a.delegations
    && WorkIs(a, b, l, if a.delegations[d].state == Validating then Stale else a.delegations[d].state)
  }

  lemma DroppedTwice(a: Core, b: Core, c: Core, l: LeaseId)
    requires l in a.claims
    ensures SameRows(a, b, l) && SameRows(b, c, l) ==> SameRows(a, c, l)
    ensures SameRows(a, b, l) && DroppedWait(b, c, l) ==> DroppedWait(a, c, l)
    ensures DroppedWait(a, b, l) && SameRows(b, c, l) ==> DroppedWait(a, c, l)
  { }

  lemma {:induction false} StaleAllWaitingRows(c: Core, rows: seq<LeaseId>, now: int, l: LeaseId)
    requires Consistent(c) && Distinct(rows) && AllWaiting(c, rows) && l in c.claims
    ensures if l in rows then DroppedWait(c, StaleAllWaiting(c, rows, now), l) else SameRows(c, StaleAllWaiting(c, rows, now), l)
    decreases |rows|
  {
    if rows == [] { assert ClaimOk(c, l); }
    else {
      var c1 := StaleWaiting(c, rows[0], now);
      assert rows[0] in rows;
      StaleWaitingRows(c, rows[0], now, l);
      StaleWaitingSound(c, rows[0], now);
      TailRows(c, c1, rows);
      StaleAllWaitingRows(c1, rows[1..], now, l);
      DroppedTwice(c, c1, StaleAllWaiting(c, rows, now), l);
    }
  }

  lemma StaleWaitingUnclaimed(c: Core, lease: LeaseId, now: int)
    ensures UnclaimedKept(c, StaleWaiting(c, lease, now))
  { if lease in c.claims { assert HasClaimRow(c, c.claims[lease].delegation); } }

  lemma {:induction false} StaleAllWaitingUnclaimed(c: Core, rows: seq<LeaseId>, now: int)
    ensures UnclaimedKept(c, StaleAllWaiting(c, rows, now))
    decreases |rows|
  {
    if rows != [] {
      var c1 := StaleWaiting(c, rows[0], now);
      StaleWaitingUnclaimed(c, rows[0], now);
      StaleAllWaitingUnclaimed(c1, rows[1..], now);
      UnclaimedTwice(c, c1, StaleAllWaiting(c, rows, now));
    }
  }

  lemma DropActiveRows(c: Core, lane: LaneId, now: int, l: LeaseId)
    requires Consistent(c) && l in c.claims
    ensures var b := DropActive(c, lane, now);
            if c.claims[l].lane == lane && Live(c.claims[l]) then StaledLease(c, b, l, now, OtherDoc(0)) else SameRows(c, b, l)
  {
    assert ClaimOk(c, l);
    if LaneBusy(c, lane) {
      var x := ActiveOn(c, lane);
      assert ClaimOk(c, x);
      if l != x { ReleaseSpares(c, x, Stale, StaleOut(c, x), 0, Terminal(Stale), OtherDoc(0), now, l); }
    }
  }

  lemma DropActiveFrame(c: Core, lane: LaneId, now: int)
    requires Consistent(c)
    ensures UnclaimedKept(c, DropActive(c, lane, now))
    ensures forall x :: x in c.lanes && x != lane ==> DropActive(c, lane, now).lanes[x] == c.lanes[x]
    ensures lane in c.lanes ==>
              && DropActive(c, lane, now).lanes[lane].ownerPath == c.lanes[lane].ownerPath
              && DropActive(c, lane, now).lanes[lane].controlRef == c.lanes[lane].controlRef
  { if LaneBusy(c, lane) { assert ClaimOk(c, ActiveOn(c, lane)); } }

  lemma ClearedRows(c: Core, lane: LaneId, now: int, waiting: seq<LeaseId>, l: LeaseId)
    requires Consistent(c) && Lists(waiting, WaitingOn(DropActive(c, lane, now), lane)) && l in c.claims
    ensures HeadDrops(c, Cleared(c, lane, now, waiting), l, lane, now)
  {
    var c1 := DropActive(c, lane, now);
    DropActiveSound(c, lane, now);
    DropActiveRows(c, lane, now, l);
    StaleAllWaitingRows(c1, waiting, now, l);
    assert ClaimOk(c, l) && ClaimOk(c1, l);
    RowsTwice(c, c1, Cleared(c, lane, now, waiting), l, now, OtherDoc(0));
    DroppedTwice(c, c1, Cleared(c, lane, now, waiting), l);
  }

  /** Moving the head itself leaves claimed work alone. */
  lemma MoveHeadRows(c: Core, lane: LaneId, head: nat, fence: nat, now: int, l: LeaseId)
    requires Consistent(c) && l in c.claims
    ensures SameRows(c, MoveHead(c, lane, head, fence, now), l)
  { assert ClaimOk(c, l); }

  lemma HeadDropsOn(a: Core, b: Core, c: Core, l: LeaseId, lane: LaneId, now: int)
    requires l in a.claims && HeadDrops(a, b, l, lane, now) && SameRows(b, c, l)
    ensures HeadDrops(a, c, l, lane, now)
  { }

  /** Work of the lane that nobody took up yet is STALE, and other unclaimed work is as before. */
  ghost predicate ReadyDropped(a: Core, b: Core, lane: LaneId) {
    && b.delegations.Keys == a.delegations.Keys
    && forall d {:trigger b.delegations[d]} :: d in a.delegations && !HasClaimRow(a, d) ==>
         b.delegations[d] == if a.delegations[d].lane == lane && a.delegations[d].state == Ready
                             then a.delegations[d].(state := Stale) else a.delegations[d]
  }

  /** All that a moved head does: the lane is at the new head under the next fence, and nothing open is left on it. */
  ghost predicate HeadMoves(a: Core, b: Core, lane: LaneId, head: nat, now: int) {
    && lane in a.lanes && b.claims.Keys == a.claims.Keys && b.outbox.Keys == a.outbox.Keys && b.lanes.Keys == a.lanes.Keys
    && b.lanes[lane] == LaneRow(a.lanes[lane].ownerPath, a.lanes[lane].controlRef, head, a.lanes[lane].fence + 1, Reconcile, None)
    && (forall x :: x in a.lanes && x != lane ==> b.lanes[x] == a.lanes[x])
    && ReadyDropped(a, b, lane)
    && forall l {:trigger HeadDrops(a, b, l, lane, now)} :: l in a.claims ==> HeadDrops(a, b, l, lane, now)
  }

  lemma HeadLane(c: Core, lane: LaneId, head: nat, now: int, waiting: seq<LeaseId>)
    requires Consistent(c) && lane in c.lanes && Lists(waiting, WaitingOn(DropActive(c, lane, now), lane))
    ensures var b := MoveHead(Cleared(c, lane, now, waiting), lane, head, c.lanes[lane].fence + 1, now);
            && b.claims.Keys == c.claims.Keys && b.outbox.Keys == c.outbox.Keys && b.lanes.Keys == c.lanes.Keys
            && b.lanes[lane]
               == LaneRow(c.lanes[lane].ownerPath, c.lanes[lane].controlRef, head, c.lanes[lane].fence + 1, Reconcile, None)
            && (forall x :: x in c.lanes && x != lane ==> b.lanes[x] == c.lanes[x])
  {
    DropActiveFrame(c, lane, now);
    StaleAllWaitingFrame(DropActive(c, lane, now), waiting, now);
    StaleAllWaitingUnclaimed(DropActive(c, lane, now), waiting, now);
  }

  lemma HeadWork(c: Core, lane: LaneId, head: nat, now: int, waiting: seq<LeaseId>)
    requires Consistent(c) && lane in c.lanes && Lists(waiting, WaitingOn(DropActive(c, lane, now), lane))
    ensures ReadyDropped(c, MoveHead(Cleared(c, lane, now, waiting), lane, head, c.lanes[lane].fence + 1, now), lane)
  {
    var mid := Cleared(c, lane, now, waiting);
    DropActiveFrame(c, lane, now);
    StaleAllWaitingUnclaimed(DropActive(c, lane, now), waiting, now);
    UnclaimedTwice(c, DropActive(c, lane, now), mid);
  }

  lemma HeadWrites(c: Core, lane: LaneId, head: nat, now: int, waiting: seq<LeaseId>)
    requires Consistent(c) && InvalidateHead(c, lane, head, now, waiting).Ok?
    ensures var b := InvalidateHead(c, lane, head, now, waiting).value;
            lane in c.lanes && if c.lanes[lane].head == head then b == c else HeadMoves(c, b, lane, head, now)
  {
    if c.lanes[lane].head != head {
      var mid := Cleared(c, lane, now, waiting);
      var b := MoveHead(mid, lane, head, c.lanes[lane].fence + 1, now);
      ClearedSound(c, lane, now, waiting);
      HeadLane(c, lane, head, now, waiting);
      HeadWork(c, lane, head, now, waiting);
      forall l | l in c.claims ensures HeadDrops(c, b, l, lane, now) {
        ClearedRows(c, lane, now, waiting, l);
        StaleAllWaitingUnclaimed(DropActive(c, lane, now), waiting, now);
        MoveHeadRows(mid, lane, head, c.lanes[lane].fence + 1, now, l);
        HeadDropsOn(c, mid, b, l, lane, now);
      }
      assert InvalidateHead(c, lane, head, now, waiting) == Ok(b);
    }
  }

  /** A new lane is idle at its head under fence 0; a known one moves to the head. */
  ghost predicate LaneRegisters(a: Core, b: Core, lane: LaneId, owner: nat, ref: nat, head: nat, now: int) {
    if lane !in a.lanes then
      && b.lanes == a.lanes[lane := LaneRow(owner, ref, head, 0, Idle, None)]
      && b.delegations == a.delegations && b.claims == a.claims && b.outbox == a.outbox
    else if a.lanes[lane].head == head then b == a
    else HeadMoves(a, b, lane, head, now)
  }

  lemma LaneWrites(c: Core, lane: LaneId, owner: nat, ref: nat, head: nat, now: int, waiting: seq<LeaseId>)
    requires Consistent(c) && RegisterLane(c, lane, owner, ref, head, now, waiting).Ok?
    ensures LaneRegisters(c, RegisterLane(c, lane, owner, ref, head, now, waiting).value, lane, owner, ref, head, now)
  { if lane in c.lanes { HeadWrites(c, lane, head, now, waiting); } }
}
