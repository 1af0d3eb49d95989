/** The transactions of the execution worker (a01_execution_worker.py): a second fence beneath the lease. */
module ExecutionSpec {
  import opened Wrappers
  import opened Tables
  import opened SupervisorSpec

  datatype ResultState = InProgress | ResultReady | Succeeded | Failed | AuthorityLost

  datatype AttemptState = AttemptRunning | AttemptReady | AttemptSucceeded | AttemptFailed | AttemptFenced

  /** What the input digest of a dispatch is taken over. */
  datatype Input = Input(dispatch: DispatchId, lease: LeaseId, lane: LaneId, key: nat, kind: nat, payload: nat)

  datatype ResultRow = ResultRow(
    lease: LeaseId, token: nat, input: Input, state: ResultState, outcome: Option<Status>, count: nat,
    generation: nat, owner: Option<WorkerId>, current: Option<AttemptId>, retrySafe: bool, payload: Doc)

  datatype AttemptRow = AttemptRow(
    dispatch: DispatchId, generation: nat, owner: WorkerId, token: nat, state: AttemptState)

  datatype Exec = Exec(results: map<DispatchId, ResultRow>, attempts: map<AttemptId, AttemptRow>)

  /** What a worker carries from its acquisition on. */
  datatype Context = Context(dispatch: DispatchId, token: int, generation: nat, owner: WorkerId, attempt: AttemptId)

  predicate Final(s: ResultState) { s == Succeeded || s == Failed || s == AuthorityLost }

  function InputOf(d: DispatchId, o: OutboxRow): Input { Input(d, o.lease, o.lane, o.key, o.kind, o.payload) }

  // ---- _acquire_execution ----

  ghost predicate GenerationTaken(e: Exec, d: DispatchId, g: nat) {
    exists a :: a in e.attempts && e.attempts[a].dispatch == d && e.attempts[a].generation == g
  }

  function NewAttempt(e: Exec, a: AttemptId, d: DispatchId, g: nat, w: WorkerId, token: nat, row: ResultRow): Exec {
    Exec(e.results[d := row], e.attempts[a := AttemptRow(d, g, w, token, AttemptRunning)])
  }

  /** `token` is the fence in the bundle that the worker read before; `retrySafe` its policy for the executor kind. */
  ghost function Acquire(
    c: Core, e: Exec, d: DispatchId, token: int, w: WorkerId, retrySafe: bool, a: AttemptId, now: int): Res<(Exec, Context)>
  {
    if d !in c.outbox then Err(Conflict)
    else if token < 0 || !LiveWorker(c, c.outbox[d].lease, token, now) then Err(StaleWorker)
    else if d !in e.results then
      if a in e.attempts || GenerationTaken(e, d, 1) then Err(Conflict)
      else
        var row := ResultRow(c.outbox[d].lease, token, InputOf(d, c.outbox[d]), InProgress, None, 1, 1,
                             Some(w), Some(a), retrySafe, NoDoc);
        Ok((NewAttempt(e, a, d, 1, w, token, row), Context(d, token, 1, w, a)))
    else
      var r := e.results[d];
      var g := if r.generation < 1 then 1 else r.generation;
      if r.input != InputOf(d, c.outbox[d]) then Err(Conflict)
      else if Final(r.state) || r.state == ResultReady then Err(Busy)
      else if r.owner.Some? && r.owner.value != w then Err(Busy)
      else if r.owner.Some? && r.current.Some? then Ok((e, Context(d, token, r.generation, w, r.current.value)))
      else if r.state != InProgress || r.owner.Some? then Err(Busy)
      else if a in e.attempts || GenerationTaken(e, d, g) then Err(Conflict)
      else
        var row := r.(generation := g, owner := Some(w), current := Some(a), retrySafe := retrySafe, count := r.count + 1);
        Ok((NewAttempt(e, a, d, g, w, token, row), Context(d, token, g, w, a)))
  }

  // ---- renew_execution_lease, _stage_owned_result, _record_authority_lost ----

  /** The result row still names this generation, owner and attempt. */
  predicate Owns(e: Exec, x: Context) {
    && x.dispatch in e.results
    && var r := e.results[x.dispatch];
    r.generation == x.generation && r.owner == Some(x.owner) && r.current == Some(x.attempt)
  }

  function RenewExecution(c: Core, e: Exec, x: Context, ttl: int, now: int): Res<Core> {
    if ttl < 30 || ttl > 3600 then Err(BadValue)
    else if x.dispatch !in c.outbox then Err(Conflict)
    else if !Owns(e, x) || Final(e.results[x.dispatch].state) then Err(StaleWorker)
    else Beat(c, c.outbox[x.dispatch].lease, x.token, Some(now + ttl), LeaseRenewed, now)
  }

  function AttemptTo(e: Exec, a: AttemptId, p: AttemptState, q: AttemptState): map<AttemptId, AttemptRow> {
    if a in e.attempts && e.attempts[a].state == p then e.attempts[a := e.attempts[a].(state := q)] else e.attempts
  }

  function Stage(c: Core, e: Exec, x: Context, outcome: Status, result: nat, now: int): Res<Exec> {
    if outcome != Completed && outcome != Blocked then Err(BadValue)
    else if x.dispatch !in c.outbox then Err(Conflict)
    else if !LiveWorker(c, c.outbox[x.dispatch].lease, x.token, now) then Err(StaleWorker)
    else if !Owns(e, x) || e.results[x.dispatch].state != InProgress then Err(StaleWorker)
    else
      var doc := StagedDoc(x.dispatch, x.generation, x.owner, x.attempt, result);
      Ok(Exec(e.results[x.dispatch := e.results[x.dispatch].(state := ResultReady, outcome := Some(outcome), payload := doc)],
              AttemptTo(e, x.attempt, AttemptRunning, AttemptReady)))
  }

  function RecordAuthorityLost(e: Exec, x: Context): Exec {
    if Owns(e, x) && e.results[x.dispatch].state == InProgress then
      Exec(e.results[x.dispatch := e.results[x.dispatch].(state := AuthorityLost, outcome := Some(Stale), owner := None)],
           AttemptTo(e, x.attempt, AttemptRunning, AttemptFenced))
    else e
  }

  // ---- _commit_staged_result: a read, then `terminal`, then the final write ----

  /** What the committing worker remembers of the staged row. */
  datatype Ticket = Ticket(dispatch: DispatchId, lease: LeaseId, token: nat, outcome: Status, payload: Doc,
                           generation: nat, attempt: Option<AttemptId>)

  function ReadStaged(e: Exec, d: DispatchId): Res<Ticket> {
    if d !in e.results || e.results[d].state != ResultReady || e.results[d].outcome.None? then Err(Conflict)
    else
      var r := e.results[d];
      Ok(Ticket(d, r.lease, r.token, r.outcome.value, r.payload, r.generation, r.current))
  }

  function Seal(c: Core, t: Ticket, now: int): Res<Core> {
    TerminalTx(c, t.lease, t.token, t.outcome, t.payload, now)
  }

  function FinalState(t: Ticket): ResultState { if t.outcome == Completed then Succeeded else Failed }

  function Finish(e: Exec, t: Ticket): Res<Exec> {
    if t.dispatch !in e.results then Err(Conflict)
    else
      var r := e.results[t.dispatch];
      var hit := r.state == ResultReady && r.generation == t.generation && r.current == t.attempt && t.attempt.Some?;
      if !hit && !Final(r.state) then Err(Conflict)
      else
        var done := if t.outcome == Completed then AttemptSucceeded else AttemptFailed;
        var attempts := if t.attempt.Some? then AttemptTo(e, t.attempt.value, AttemptReady, done) else e.attempts;
        Ok(Exec(if hit then e.results[t.dispatch := r.(state := FinalState(t), owner := None)] else e.results, attempts))
  }

  // ---- recovery ----

  /** `_recoverable`; `kinds` are the executors that this worker has. */
  predicate Recoverable(
    r: ClaimRow, o: OutboxRow, row: Option<ResultRow>, kinds: set<nat>, d: DispatchId, now: int, sla: int)
  {
    && Expired(r, now, sla)
    && o.kind in kinds
    && (o.state == Pending || o.state == Dispatched)
    && (o.run == None || o.run == Some(LocalRun(d)))
    && (row.Some? ==> !Final(row.value.state) && (row.value.state == InProgress ==> row.value.retrySafe))
  }

  function ResultOf(e: Exec, d: DispatchId): Option<ResultRow> { if d in e.results then Some(e.results[d]) else None }

  /** `_validate_recovery_identity` for a claim row, its dispatch and its result row. */
  predicate IdentityMatches(l: LeaseId, r: ClaimRow, o: OutboxRow, row: Option<ResultRow>) {
    && o.token == r.token && o.key == r.key
    && (row.Some? ==> row.value.token == r.token && row.value.input == InputOf(r.dispatch, o))
  }

  /** The lease goes on under a new fence that claim, lane, dispatch and result rows all get. */
  function Refence(c: Core, l: LeaseId, ttl: int, now: int): Core
    requires l in c.claims && c.claims[l].lane in c.lanes
  {
    var r := c.claims[l];
    var fence := c.lanes[r.lane].fence + 1;
    c.(lanes := LaneTo(c.lanes, r.lane, 1, HasClaim, Some(r.delegation)),
       claims := c.claims[l := r.(token := fence, expiresAt := now + ttl, heartbeatAt := now, status := Recovered, reason := NoDoc)],
       outbox := if r.dispatch in c.outbox then c.outbox[r.dispatch := c.outbox[r.dispatch].(token := fence)] else c.outbox,
       events := c.events + [EventOf(now, LeaseRecovered, l, r, fence, NoDoc)])
  }

  function RefenceResult(e: Exec, d: DispatchId, fence: nat): Exec {
    if d !in e.results then e
    else
      var r := e.results[d];
      if r.state == InProgress then
        Exec(e.results[d := r.(token := fence, generation := r.generation + 1, owner := None, current := None)],
             if r.current.Some? then AttemptTo(e, r.current.value, AttemptRunning, AttemptFenced) else e.attempts)
      else if r.state == ResultReady then e.(results := e.results[d := r.(token := fence, owner := None)])
      else e
  }

  ghost predicate Active(c: Core, l: LeaseId, lane: LaneId) {
    LaneBusy(c, lane) && ActiveOn(c, lane) == l
  }

  ghost function RecoverLocalOne(
    c: Core, e: Exec, l: LeaseId, kinds: set<nat>, ttl: int, now: int, sla: int)
    : Res<(Core, Exec)>
  {
    if l !in c.claims || c.claims[l].dispatch !in c.outbox then Ok((c, e))
    else
      var r := c.claims[l];
      var o := c.outbox[r.dispatch];
      var row := ResultOf(e, r.dispatch);
      if !IdentityMatches(l, r, o, row) then Err(Conflict)
      else if !Recoverable(r, o, row, kinds, r.dispatch, now, sla) then Ok((c, e))
      else if r.lane !in c.lanes then Err(Conflict)
      else if !Active(c, l, r.lane) then Ok((c, e))
      else Ok((Refence(c, l, ttl, now), RefenceResult(e, r.dispatch, c.lanes[r.lane].fence + 1)))
  }

  ghost function RecoverLocalAll(
    c: Core, e: Exec, rows: seq<LeaseId>, kinds: set<nat>, ttl: int, now: int, sla: int)
    : Res<(Core, Exec)>
    decreases |rows|
  {
    if rows == [] then Ok((c, e))
    else
      var one := RecoverLocalOne(c, e, rows[0], kinds, ttl, now, sla);
      if one.Err? then one else RecoverLocalAll(one.value.0, one.value.1, rows[1..], kinds, ttl, now, sla)
  }

  /** `_recover_local_claims`; `rows` answers the query for live claims. */
  ghost function RecoverLocal(
    c: Core, e: Exec, rows: seq<LeaseId>, kinds: set<nat>, ttl: int, now: int, sla: int)
    : Res<(Core, Exec)>
  {
    if !Lists(rows, LiveLeases(c)) then Err(Conflict) else RecoverLocalAll(c, e, rows, kinds, ttl, now, sla)
  }

  /** The result of the dispatch was not final when its lease was reported stale. */
  predicate Abandoned(r: ResultRow, stale: set<LeaseId>) {
    r.lease in stale && (r.state == InProgress || r.state == ResultReady)
  }

  predicate CurrentOf(e: Exec, a: AttemptId, d: DispatchId, stale: set<LeaseId>) {
    d in e.results && Abandoned(e.results[d], stale) && e.results[d].current == Some(a)
  }

  /** The second transaction of the worker's `recover`: results of stale leases lose their authority. */
  function MarkAuthorityLost(e: Exec, stale: set<LeaseId>): Exec {
    Exec(map d | d in e.results ::
           if Abandoned(e.results[d], stale)
           then e.results[d].(state := AuthorityLost, outcome := Some(Stale), owner := None) else e.results[d],
         map a | a in e.attempts ::
           if e.attempts[a].state == AttemptRunning && CurrentOf(e, a, e.attempts[a].dispatch, stale)
           then e.attempts[a].(state := AttemptFenced) else e.attempts[a])
  }
}
