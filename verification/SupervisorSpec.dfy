/** The transactions of the supervisor store (tools/second_shift_supervisor_v2.py) as functions on its tables.
    An `Err` result stands for the rollback: the tables keep their old value. */
module SupervisorSpec {
  import opened Wrappers
  import opened Tables

  datatype Request = Request(
    lane: LaneId, delegation: DelegationId, objective: nat, head: nat, key: nat,
    kind: nat, payload: nat, ttl: int, now: int, lease: LeaseId, dispatch: DispatchId)

  // ---- register_lane, bind_ready ----

  ghost function RegisterLane(
    c: Core, lane: LaneId, owner: nat, ref: nat, head: nat, now: int, waiting: seq<LeaseId>): Res<Core>
  {
    if lane !in c.lanes then
      Ok(c.(lanes := c.lanes[lane := LaneRow(owner, ref, head, 0, Idle, None)],
            events := c.events + [LaneEvent(now, lane, LaneRegistered, 0)]))
    else if c.lanes[lane].ownerPath != owner || c.lanes[lane].controlRef != ref then Err(Conflict)
    else InvalidateHead(c, lane, head, now, waiting)
  }

  function AddReady(c: Core, lane: LaneId, d: DelegationId, row: DelegationRow): Core {
    c.(delegations := c.delegations[d := row], lanes := LaneTo(c.lanes, lane, 0, HasReady, Some(d)))
  }

  ghost predicate AwaitsEvaluation(c: Core, lane: LaneId) {
    exists d :: d in c.delegations && c.delegations[d].lane == lane && c.delegations[d].state == Validating
  }

  ghost function BindReady(
    c: Core, lane: LaneId, d: DelegationId, objective: nat, head: nat, evaluated: bool, now: int): Res<Core>
  {
    if lane !in c.lanes || c.lanes[lane].head != head then Err(Conflict)
    else if LaneBusy(c, lane) || AwaitsEvaluation(c, lane) then Err(Conflict)
    else if d in c.delegations then
      var e := c.delegations[d];
      if e.lane == lane && e.objective == objective && e.head == head && e.state == Ready then Ok(c)
      else Err(Conflict)
    else
      var c' := AddReady(c, lane, d, DelegationRow(lane, objective, head, Ready, evaluated));
      Ok(c'.(events := c'.events + [
        Event(now, lane, SuccessorBound, Some(d), None, None, 0, NoDoc),
        Event(now, lane, WorkReady, Some(d), None, None, 0, NoDoc)]))
  }

  // ---- claim_ready ----

  ghost predicate KeyUsed(c: Core, key: nat) { exists l :: l in c.claims && c.claims[l].key == key }

  ghost function HolderOf(c: Core, key: nat): LeaseId
    requires KeyUsed(c, key)
  {
    var l :| l in c.claims && c.claims[l].key == key; l
  }

  predicate SameClaim(p: ClaimRow, q: Request) {
    p.lane == q.lane && p.delegation == q.delegation && p.objective == q.objective && p.head == q.head
  }

  /** The delegation is exact current READY work and the lane is free. */
  ghost predicate Grantable(c: Core, q: Request) {
    && q.lane in c.lanes
    && c.lanes[q.lane].head == q.head
    && !LaneBusy(c, q.lane)
    && q.delegation in c.delegations
    && c.delegations[q.delegation].lane == q.lane
    && c.delegations[q.delegation].objective == q.objective
    && c.delegations[q.delegation].head == q.head
    && c.delegations[q.delegation].state == Ready
  }

  /** Identifiers come from `uuid4`: a primary key that is already stored aborts the insert. */
  predicate Fresh(c: Core, q: Request) {
    && q.lease !in c.claims && q.dispatch !in c.outbox
  }

  /** The rows that a successful claim writes; the lane fence becomes the token of the new lease. */
  function Grant(c: Core, q: Request): Core
    requires q.lane in c.lanes
  {
    var token := c.lanes[q.lane].fence + 1;
    var claim := ClaimRow(q.lane, q.delegation, q.objective, q.head, q.key, token,
                          q.now, q.now + q.ttl, q.now, Claimed, None, NoDoc, q.dispatch);
    c.(lanes := LaneTo(c.lanes, q.lane, 1, HasClaim, Some(q.delegation)),
       delegations := DelegationTo(c.delegations, q.delegation, Claimed),
       claims := c.claims[q.lease := claim],
       outbox := c.outbox[q.dispatch := OutboxRow(q.lane, q.lease, q.key, token, q.kind, q.payload, Pending, 0, None)],
       events := c.events + [EventOf(q.now, LeaseGranted, q.lease, claim, token, NoDoc),
                             EventOf(q.now, DispatchIntent, q.lease, claim, token, NoDoc)])
  }

  /** `queued` holds the delegations that the night scheduler guards with its trigger. */
  ghost function ClaimReady(c: Core, q: Request, shiftOpen: bool, queued: set<DelegationId>): Res<Core> {
    if !shiftOpen then Err(Conflict)
    else if q.ttl < 30 || q.ttl > 3600 then Err(BadValue)
    else if KeyUsed(c, q.key) then
      if SameClaim(c.claims[HolderOf(c, q.key)], q) then Ok(c) else Err(Conflict)
    else if !Grantable(c, q) || !Fresh(c, q) || q.delegation in queued then Err(Conflict)
    else Ok(Grant(c, q))
  }

  // ---- mark_dispatched, dispatch_failed ----

  function MarkDispatched(c: Core, d: DispatchId, run: RunId, now: int): Res<Core> {
    if d !in c.outbox then Err(Conflict)
    else
      var o := c.outbox[d];
      if o.run.Some? then (if o.run.value == run then Ok(c) else Err(Conflict))
      else if o.lease !in c.claims || !Live(c.claims[o.lease]) then Err(StaleWorker)
      else
        Ok(c.(outbox := c.outbox[d := o.(state := Dispatched, run := Some(run), attempt := o.attempt + 1)],
              events := c.events + [EventOf(now, RunDispatched, o.lease, c.claims[o.lease], c.claims[o.lease].token, NoDoc)]))
  }

  predicate IsFailure(e: Event) { (e.kind == RetryLogged || e.kind == CircuitOpened) && e.doc.FailureDoc? }

  /** The first logged failure with this id at or after position `i`, or the length of the log. */
  function FindFailure(ev: seq<Event>, i: nat, failure: nat): (k: nat)
    requires i <= |ev|
    ensures i <= k <= |ev|
    ensures k < |ev| ==> IsFailure(ev[k]) && ev[k].doc.failure == failure
    ensures forall j :: i <= j < k ==> !(IsFailure(ev[j]) && ev[j].doc.failure == failure)
    decreases |ev| - i
  {
    if i == |ev| then i
    else if IsFailure(ev[i]) && ev[i].doc.failure == failure then i
    else FindFailure(ev, i + 1, failure)
  }

  datatype Answer = Answer(open: bool, attempt: int, nextAt: int)

  function Pow2(n: nat): nat { if n == 0 then 1 else 2 * Pow2(n - 1) }

  function Min(a: int, b: int): int { if a <= b then a else b }

  function DispatchFailed(c: Core, d: DispatchId, error: nat, budget: int, failure: nat, now: int): Res<(Core, Answer)> {
    if budget < 1 || budget > 3 then Err(BadValue)
    else if d !in c.outbox then Err(Conflict)
    else
      var k := FindFailure(c.events, 0, failure);
      if k < |c.events| then
        var e := c.events[k];
        if e.dispatch == Some(d) && e.doc.error == error && e.doc.budget == budget
        then Ok((c, Answer(e.kind == CircuitOpened, e.doc.spent, e.doc.nextAt)))
        else Err(Conflict)
      else
        var o := c.outbox[d];
        if o.run.Some? || (o.state != Pending && o.state != RetryWait) then Err(Conflict)
        else
          var attempt := o.attempt + 1;
          var open := attempt >= budget;
          var nextAt := if open then now + 300 else now + Min(60, Pow2(attempt) * 5);
          var c' := c.(outbox := c.outbox[d := o.(state := if open then CircuitOpen else RetryWait, attempt := attempt)],
                       events := c.events + [Event(now, o.lane, if open then CircuitOpened else RetryLogged, None, None,
                                                   Some(d), o.token, FailureDoc(failure, error, budget, attempt, nextAt))]);
          Ok((c', Answer(open, attempt, nextAt)))
  }

  // ---- heartbeat, progress, renew_lease ----

  /** `expires` is given when the lease is renewed. */
  function Beat(c: Core, lease: LeaseId, token: int, expires: Option<int>, kind: EventKind, now: int): Res<Core> {
    if lease !in c.claims then Err(Conflict)
    else if !LiveWorker(c, lease, token, now) then Err(StaleWorker)
    else
      var r := c.claims[lease];
      var r' := r.(heartbeatAt := now, status := Running,
                   expiresAt := if expires.Some? then expires.value else r.expiresAt);
      Ok(c.(claims := c.claims[lease := r'], events := c.events + [EventOf(now, kind, lease, r, r.token, NoDoc)]))
  }

  // ---- await_evaluation, evaluator_verdict ----

  function AwaitEvaluation(
    c: Core, lease: LeaseId, token: int, digest: nat, candidate: nat, timeout: int, now: int): Res<Core>
  {
    if timeout < 30 || timeout > 3600 then Err(BadValue)
    else if lease !in c.claims then Err(Conflict)
    else
      var r := c.claims[lease];
      if r.delegation !in c.delegations || r.dispatch !in c.outbox then Err(Conflict)
      else
        var o := c.outbox[r.dispatch];
        if !Live(r) then
          if r.status == Validating && c.delegations[r.delegation].state == Validating && token == r.token
             && r.reason.HandoffDoc? && r.reason.digest == digest && r.reason.candidate == candidate
             && r.reason.timeout == timeout && o.run == Some(r.reason.worker)
          then Ok(c)
          else if token != r.token || r.status == Stale then Err(StaleWorker)
          else Err(Conflict)
        else if !LiveWorker(c, lease, token, now) then Err(StaleWorker)
        else if o.state != Dispatched || o.run.None? then Err(Conflict)
        else
          var doc := HandoffDoc(digest, candidate, o.run.value, timeout, now + timeout);
          Ok(c.(claims := ClaimTo(c.claims, lease, Validating, Some(now), doc),
                delegations := DelegationTo(c.delegations, r.delegation, Validating),
                lanes := LaneTo(c.lanes, r.lane, 0, Reconcile, None),
                outbox := OutboxTo(c.outbox, r.dispatch, InValidation),
                events := c.events + [EventOf(now, ValidatingStarted, lease, r, r.token, doc)]))
  }

  predicate IsVerdict(e: Event) { e.kind == VerdictRecorded && e.doc.VerdictDoc? }

  function FindVerdict(ev: seq<Event>, i: nat, id: nat): (k: nat)
    requires i <= |ev|
    ensures i <= k <= |ev|
    ensures k < |ev| ==> IsVerdict(ev[k]) && ev[k].doc.id == id
    ensures forall j :: i <= j < k ==> !(IsVerdict(ev[j]) && ev[j].doc.id == id)
    decreases |ev| - i
  {
    if i == |ev| then i
    else if IsVerdict(ev[i]) && ev[i].doc.id == id then i
    else FindVerdict(ev, i + 1, id)
  }

  function EvaluatorVerdict(c: Core, lease: LeaseId, token: int, v: Doc, now: int): Res<Core> {
    if !v.VerdictDoc? then Err(BadValue)
    else
      var k := FindVerdict(c.events, 0, v.id);
      if k < |c.events| then
        (if c.events[k].lease == Some(lease) && c.events[k].doc == v then Ok(c) else Err(Conflict))
      else if lease !in c.claims then Err(Conflict)
      else
        var r := c.claims[lease];
        if token != r.token || r.status == Stale then Err(StaleWorker)
        else if r.status != Validating || Live(r) then Err(Conflict)
        else if r.lane !in c.lanes then Err(Conflict)
        else if c.lanes[r.lane].head != r.head || c.lanes[r.lane].fence != r.token then Err(StaleWorker)
        else if !r.reason.HandoffDoc? || r.reason.digest != v.digest || r.reason.worker == v.evaluator then Err(Conflict)
        else if r.reason.deadline <= now then Err(StaleWorker)
        else if r.delegation !in c.delegations || c.delegations[r.delegation].state != Validating then Err(Conflict)
        else if r.dispatch !in c.outbox || c.outbox[r.dispatch].state != InValidation then Err(Conflict)
        else
          var s := if v.verdict == Pass then Completed else Blocked;
          Ok(c.(claims := ClaimTo(c.claims, lease, s, r.released, v),
                delegations := DelegationTo(c.delegations, r.delegation, s),
                outbox := OutboxTo(c.outbox, r.dispatch, if v.verdict == Pass then OutCompleted else OutBlocked),
                events := c.events + [EventOf(now, VerdictRecorded, lease, r, r.token, v),
                                      EventOf(now, Terminal(s), lease, r, r.token, NoDoc)]))
  }

  // ---- terminal ----

  /** A live lease ends: its claim, delegation, lane and dispatch rows change together. */
  function Release(c: Core, lease: LeaseId, s: Status, out: OutboxState, bump: nat, kind: EventKind, reason: Doc, now: int): Core
    requires lease in c.claims
  {
    var r := c.claims[lease];
    c.(claims := ClaimTo(c.claims, lease, s, Some(now), reason),
       delegations := DelegationTo(c.delegations, r.delegation, s),
       lanes := LaneTo(c.lanes, r.lane, bump, Reconcile, None),
       outbox := OutboxTo(c.outbox, r.dispatch, out),
       events := c.events + [EventOf(now, kind, lease, r, LoggedToken(c, r, bump, kind), reason)])
  }

  /** Cancellation logs the new lane fence; the other endings log the fence of the lease. */
  function LoggedToken(c: Core, r: ClaimRow, bump: nat, kind: EventKind): nat {
    if kind == CancelLogged && r.lane in c.lanes then c.lanes[r.lane].fence + bump else r.token
  }

  function StaleOut(c: Core, lease: LeaseId): OutboxState
    requires lease in c.claims
  {
    if c.claims[lease].dispatch in c.outbox then StaleDispatch(c.outbox[c.claims[lease].dispatch]) else OutCancelled
  }

  function TerminalTx(c: Core, lease: LeaseId, token: int, s: Status, payload: Doc, now: int): Res<Core> {
    if s != Completed && s != Blocked && s != Stale then Err(BadValue)
    else if lease !in c.claims then Err(Conflict)
    else
      var r := c.claims[lease];
      if !Live(r) then
        if r.status == s && token == r.token && r.reason == payload then Ok(c)
        else if token != r.token || r.status == Stale then Err(StaleWorker)
        else Err(Conflict)
      else if s != Stale && !LiveWorker(c, lease, token, now) then Err(StaleWorker)
      else if s == Stale && (r.lane !in c.lanes || (token != r.token && token != c.lanes[r.lane].fence)) then Err(StaleWorker)
      else if s == Completed && r.delegation in c.delegations && c.delegations[r.delegation].evaluated then Err(Conflict)
      else
        var out := if s == Stale then StaleOut(c, lease)
                   else if r.dispatch in c.outbox then DoneDispatch(c.outbox[r.dispatch]) else OutCancelled;
        Ok(Release(c, lease, s, out, 0, Terminal(s), payload, now))
  }

  // ---- invalidate_head ----

  /** A waiting candidate of the lane is staled; the lane row is written once, at the end. */
  function StaleWaiting(c: Core, lease: LeaseId, now: int): Core {
    if lease !in c.claims then c
    else
      var r := c.claims[lease];
      var ds := if r.delegation in c.delegations && c.delegations[r.delegation].state == Validating
                then DelegationTo(c.delegations, r.delegation, Stale) else c.delegations;
      var os := if r.dispatch in c.outbox && c.outbox[r.dispatch].state == InValidation
                then OutboxTo(c.outbox, r.dispatch, OutCancelled) else c.outbox;
      c.(claims := ClaimTo(c.claims, lease, Stale, r.released, OtherDoc(0)), delegations := ds, outbox := os,
         events := c.events + [EventOf(now, Terminal(Stale), lease, r, r.token, OtherDoc(0))])
  }

  function StaleAllWaiting(c: Core, rows: seq<LeaseId>, now: int): Core
    decreases |rows|
  {
    if rows == [] then c else StaleAllWaiting(StaleWaiting(c, rows[0], now), rows[1..], now)
  }

  function WaitingOn(c: Core, lane: LaneId): set<LeaseId> {
    set l | l in c.claims && c.claims[l].lane == lane && c.claims[l].status == Validating && !Live(c.claims[l])
  }

  ghost function ActiveOn(c: Core, lane: LaneId): LeaseId
    requires LaneBusy(c, lane)
  {
    var l :| l in c.claims && Live(c.claims[l]) && c.claims[l].lane == lane; l
  }

  function MoveHead(c: Core, lane: LaneId, head: nat, fence: nat, now: int): Core {
    if lane !in c.lanes then c
    else
      c.(delegations := map d | d in c.delegations ::
                          if c.delegations[d].lane == lane && c.delegations[d].state == Ready
                          then c.delegations[d].(state := Stale) else c.delegations[d],
         lanes := c.lanes[lane := c.lanes[lane].(head := head, fence := fence, state := Reconcile, current := None)],
         events := c.events + [LaneEvent(now, lane, HeadChanged, fence)])
  }

  ghost function DropActive(c: Core, lane: LaneId, now: int): Core {
    if LaneBusy(c, lane) then
      Release(c, ActiveOn(c, lane), Stale, StaleOut(c, ActiveOn(c, lane)), 0, Terminal(Stale), OtherDoc(0), now)
    else c
  }

  /** The tables just before the lane row is rewritten. */
  ghost function Cleared(c: Core, lane: LaneId, now: int, waiting: seq<LeaseId>): Core {
    StaleAllWaiting(DropActive(c, lane, now), waiting, now)
  }

  /** `waiting` is the answer of the query for VALIDATING claims of the lane. */
  ghost function InvalidateHead(c: Core, lane: LaneId, head: nat, now: int, waiting: seq<LeaseId>): Res<Core> {
    if lane !in c.lanes then Err(Conflict)
    else if c.lanes[lane].head == head then Ok(c)
    else if !Lists(waiting, WaitingOn(DropActive(c, lane, now), lane)) then Err(Conflict)
    else Ok(MoveHead(Cleared(c, lane, now, waiting), lane, head, c.lanes[lane].fence + 1, now))
  }

  // ---- recover ----

  predicate Expired(r: ClaimRow, now: int, sla: int) { r.expiresAt <= now || now - r.heartbeatAt > sla }

  function RecoverOne(c: Core, lease: LeaseId, now: int, sla: int): Core {
    if lease in c.claims && Expired(c.claims[lease], now, sla)
    then Release(c, lease, Stale, StaleOut(c, lease), 1, Terminal(Stale), OtherDoc(1), now)
    else c
  }

  function RecoverLive(c: Core, rows: seq<LeaseId>, now: int, sla: int): Core
    decreases |rows|
  {
    if rows == [] then c else RecoverLive(RecoverOne(c, rows[0], now, sla), rows[1..], now, sla)
  }

  predicate TimedOut(r: ClaimRow, now: int) { !(r.reason.HandoffDoc? && r.reason.deadline > now) }

  function TimeoutOne(c: Core, lease: LeaseId, now: int): Core {
    if lease in c.claims && TimedOut(c.claims[lease], now) then
      var r := c.claims[lease];
      c.(claims := ClaimTo(c.claims, lease, Stale, r.released, OtherDoc(2)),
         delegations := DelegationTo(c.delegations, r.delegation, Stale),
         lanes := LaneTo(c.lanes, r.lane, 1, Reconcile, None),
         outbox := OutboxTo(c.outbox, r.dispatch, OutCancelled),
         events := c.events + [EventOf(now, Terminal(Stale), lease, r, r.token, OtherDoc(2))])
    else c
  }

  function TimeoutAll(c: Core, rows: seq<LeaseId>, now: int): Core
    decreases |rows|
  {
    if rows == [] then c else TimeoutAll(TimeoutOne(c, rows[0], now), rows[1..], now)
  }

  function LiveLeases(c: Core): set<LeaseId> { set l | l in c.claims && Live(c.claims[l]) }

  function WaitingLeases(c: Core): set<LeaseId> {
    set l | l in c.claims && c.claims[l].status == Validating && !Live(c.claims[l])
  }

  /** `live` and `waiting` are the answers of the two queries, each run on the tables it reads. */
  ghost function Recover(c: Core, now: int, sla: int, live: seq<LeaseId>, waiting: seq<LeaseId>): Res<Core> {
    if !Lists(live, LiveLeases(c)) then Err(Conflict)
    else
      var c1 := RecoverLive(c, live, now, sla);
      if !Lists(waiting, WaitingLeases(c1)) then Err(Conflict)
      else Ok(TimeoutAll(c1, waiting, now))
  }
}
