/** The rows of the supervisor database. Every table is a map from its primary key to a row, and the
    append-only event log is a sequence. Identifiers and instants (in seconds) are plain numbers: the program
    only compares them. */
module Tables {
  import opened Wrappers

  datatype Error = Conflict | StaleWorker | BadValue | Busy

  /** The result of a transaction: the committed value, or the error after a rollback. */
  datatype Res<+T> = Ok(value: T) | Err(error: Error)

  type LaneId = nat
  type DelegationId = nat
  type LeaseId = nat
  type DispatchId = nat
  type AttemptId = nat
  type WorkerId = nat

  /** The run that performs a dispatch: the local worker names its run after the dispatch. */
  datatype RunId = LocalRun(of: DispatchId) | NamedRun(n: nat)

  datatype LaneState = Idle | HasReady | HasClaim | Reconcile

  /** The vocabulary shared by `delegations.state` and `claims.status`. */
  datatype Status =
    | Ready | Claimed | Running | Recovered | Validating
    | Completed | Blocked | Stale | Cancelled

  datatype OutboxState =
    | Pending | RetryWait | CircuitOpen | Dispatched | InValidation
    | CancelRequested | OutCancelled | OutCompleted | OutBlocked

  datatype Verdict = Pass | Block | Rework | Drift

  /** The JSON objects that the program stores in `terminal_reason`, `result_json` and event payloads. */
  datatype Doc =
    | NoDoc
    | HandoffDoc(digest: nat, candidate: nat, worker: RunId, timeout: int, deadline: int)
    | VerdictDoc(id: nat, verdict: Verdict, digest: nat, evaluator: RunId, evidence: nat)
    | FailureDoc(failure: nat, error: nat, budget: int, spent: int, nextAt: int)
    | StagedDoc(dispatch: DispatchId, generation: nat, owner: WorkerId, attempt: AttemptId, result: nat)
    | OtherDoc(n: nat)

  datatype LaneRow = LaneRow(
    ownerPath: nat, controlRef: nat, head: nat, fence: nat, state: LaneState, current: Option<DelegationId>)

  datatype DelegationRow = DelegationRow(
    lane: LaneId, objective: nat, head: nat, state: Status, evaluated: bool)

  datatype ClaimRow = ClaimRow(
    lane: LaneId, delegation: DelegationId, objective: nat, head: nat, key: nat, token: nat,
    claimedAt: int, expiresAt: int, heartbeatAt: int, status: Status,
    released: Option<int>, reason: Doc, dispatch: DispatchId)

  datatype OutboxRow = OutboxRow(
    lane: LaneId, lease: LeaseId, key: nat, token: nat, kind: nat, payload: nat,
    state: OutboxState, attempt: nat, run: Option<RunId>)

  datatype EventKind =
    | LaneRegistered | SuccessorBound | WorkReady | LeaseGranted | DispatchIntent | RunDispatched
    | RetryLogged | CircuitOpened | Heartbeat | ValidatingStarted | VerdictRecorded
    | Terminal(status: Status) | HeadChanged | CoordinationBound | CancelLogged | CancelAcknowledged
    | LeaseRenewed | LeaseRecovered

  datatype Event = Event(
    at: int, lane: LaneId, kind: EventKind, delegation: Option<DelegationId>, lease: Option<LeaseId>,
    dispatch: Option<DispatchId>, token: nat, doc: Doc)

  /** The tables of the supervisor store. */
  datatype Core = Core(
    lanes: map<LaneId, LaneRow>, delegations: map<DelegationId, DelegationRow>,
    claims: map<LeaseId, ClaimRow>, outbox: map<DispatchId, OutboxRow>, events: seq<Event>)

  predicate Live(c: ClaimRow) { c.released.None? }

  /** A claim is open while it is live or waits for its evaluator. */
  predicate Open(c: ClaimRow) { Live(c) || c.status == Validating }

  ghost predicate LaneBusy(c: Core, lane: LaneId) {
    exists l :: l in c.claims && Live(c.claims[l]) && c.claims[l].lane == lane
  }

  ghost predicate LaneInValidation(c: Core, lane: LaneId) {
    exists l :: l in c.claims && c.claims[l].status == Validating && c.claims[l].lane == lane
  }

  /** What a worker must show to act under a lease, apart from the clock. */
  predicate Authority(c: Core, lease: LeaseId, token: int) {
    && lease in c.claims
    && Live(c.claims[lease])
    && c.claims[lease].lane in c.lanes
    && token == c.claims[lease].token == c.lanes[c.claims[lease].lane].fence
    && c.lanes[c.claims[lease].lane].head == c.claims[lease].head
  }

  /** `_assert_live_worker` */
  predicate LiveWorker(c: Core, lease: LeaseId, token: int, now: int) {
    Authority(c, lease, token) && c.claims[lease].expiresAt > now
  }

  /** `rows` lists every lease of `s` once: the result of a query, in any order. */
  ghost predicate Lists(rows: seq<LeaseId>, s: set<LeaseId>) {
    Distinct(rows) && forall l :: l in rows <==> l in s
  }

  // The UPDATE statements: an update of a missing key changes nothing.

  function DelegationTo(ds: map<DelegationId, DelegationRow>, d: DelegationId, s: Status)
    : map<DelegationId, DelegationRow>
  {
    if d in ds then ds[d := ds[d].(state := s)] else ds
  }

  function LaneTo(ls: map<LaneId, LaneRow>, l: LaneId, bump: nat, s: LaneState, current: Option<DelegationId>)
    : map<LaneId, LaneRow>
  {
    if l in ls then ls[l := ls[l].(fence := ls[l].fence + bump, state := s, current := current)] else ls
  }

  function ClaimTo(cs: map<LeaseId, ClaimRow>, l: LeaseId, s: Status, released: Option<int>, reason: Doc)
    : map<LeaseId, ClaimRow>
  {
    if l in cs then cs[l := cs[l].(status := s, released := released, reason := reason)] else cs
  }

  function OutboxTo(os: map<DispatchId, OutboxRow>, d: DispatchId, s: OutboxState): map<DispatchId, OutboxRow> {
    if d in os then os[d := os[d].(state := s)] else os
  }

  /** `_release_dispatch_for_stale_authority` */
  function StaleDispatch(o: OutboxRow): OutboxState {
    if o.state == Dispatched && o.run.Some? then CancelRequested
    else if o.state == Pending || o.state == RetryWait then OutCancelled
    else o.state
  }

  /** The outbox column update of an ordinary terminal result. */
  function DoneDispatch(o: OutboxRow): OutboxState {
    if o.state == Pending || o.state == RetryWait then OutCancelled else o.state
  }

  function EventOf(at: int, kind: EventKind, lease: LeaseId, c: ClaimRow, token: nat, doc: Doc): Event {
    Event(at, c.lane, kind, Some(c.delegation), Some(lease), Some(c.dispatch), token, doc)
  }

  function LaneEvent(at: int, lane: LaneId, kind: EventKind, token: nat): Event {
    Event(at, lane, kind, None, None, None, token, NoDoc)
  }
}
