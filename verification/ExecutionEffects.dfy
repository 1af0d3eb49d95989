/** What the execution worker does, row by row: when an attempt may begin and what it stores, what a worker may stage, how a
    commit ends, and which leases a recovery carries on. */
module ExecutionEffects {
  import opened Wrappers
  import opened Tables
  import opened SupervisorSpec
  import opened SupervisorInvariants
  import opened SupervisorSafety
  import opened StoreSteps
  import opened SupervisorEffects
  import opened ExecutionSpec
  import opened ExecutionSafety
  import opened LeaseRecovery

  // ---- _acquire_execution ----

  /** The lease of the dispatch is live under this fence and in time. */
  predicate HoldsLease(c: Core, d: DispatchId, token: int, now: int) {
    && d in c.outbox && c.outbox[d].lease in c.claims
    && var r := c.claims[c.outbox[d].lease];
    && Live(r) && token == r.token && r.lane in c.lanes && token == c.lanes[r.lane].fence && c.lanes[r.lane].head == r.head
    && now < r.expiresAt
  }

  /** The worker has a running attempt of the dispatch already. */
  predicate HasAttempt(e: Exec, d: DispatchId, w: WorkerId) {
    d in e.results && e.results[d].state == InProgress && e.results[d].owner == Some(w)
  }

  /** Nobody works at the dispatch, and it has no result. */
  predicate OpenForAttempt(e: Exec, d: DispatchId) { d in e.results ==> e.results[d].state == InProgress && e.results[d].owner.None? }

  /** A worker gets the dispatch of a live lease if it has it already, or nobody has it and the id of the attempt is new. */
  predicate AcceptsAttempt(c: Core, e: Exec, d: DispatchId, token: int, w: WorkerId, a: AttemptId, now: int) {
    HoldsLease(c, d, token, now) && (HasAttempt(e, d, w) || (OpenForAttempt(e, d) && a !in e.attempts))
  }

  /** A new attempt begins: its row is running under this worker, fence and the generation of the result row, which names it,
      counts it and holds the retry policy; no other row changes. */
  ghost predicate AttemptBegins(
    c: Core, e: Exec, f: Exec, x: Context, d: DispatchId, token: int, w: WorkerId, retrySafe: bool, a: AttemptId)
  {
    && d in c.outbox && d in f.results && a !in e.attempts
    && f.results.Keys == e.results.Keys + {d} && (forall y :: y in e.results && y != d ==> f.results[y] == e.results[y])
    && f.attempts.Keys == e.attempts.Keys + {a} && (forall y :: y in e.attempts ==> f.attempts[y] == e.attempts[y])
    && var r := f.results[d];
    && r.retrySafe == retrySafe && r.state == InProgress && r.owner == Some(w) && r.current == Some(a)
    && r.outcome == (if d in e.results then e.results[d].outcome else None)
    && r.lease == c.outbox[d].lease && r.token == token && r.payload == NoDoc
    && r.input.dispatch == d && r.input.lease == c.outbox[d].lease && r.input.lane == c.outbox[d].lane
    && r.input.key == c.outbox[d].key && r.input.kind == c.outbox[d].kind && r.input.payload == c.outbox[d].payload
    && r.count == (if d in e.results then e.results[d].count + 1 else 1)
    && r.generation == (if d in e.results then e.results[d].generation else 1)
    && f.attempts[a] == AttemptRow(d, r.generation, w, r.token, AttemptRunning)
    && x == Context(d, token, r.generation, w, a)
  }

  /** The running attempt of the worker goes on. */
  predicate AttemptGoesOn(e: Exec, f: Exec, x: Context, d: DispatchId, token: int, w: WorkerId) {
    && f == e && d in e.results && x == Context(d, token, e.results[d].generation, w, x.attempt)
    && e.results[d].current == Some(x.attempt)
  }

  lemma NoGenerationYet(e: Exec, d: DispatchId, g: nat)
    requires AttemptsOk(e)
    requires d in e.results ==> e.results[d].state == InProgress && e.results[d].current.None? && g == e.results[d].generation
    ensures !GenerationTaken(e, d, g)
  {
    forall a | a in e.attempts && e.attempts[a].dispatch == d ensures e.attempts[a].generation != g { assert AttemptOk(e, a); }
  }

  lemma AttemptAccepted(c: Core, e: Exec, d: DispatchId, token: int, w: WorkerId, retrySafe: bool, a: AttemptId, now: int)
    requires Consistent(c) && Executes(c, e)
    ensures Acquire(c, e, d, token, w, retrySafe, a, now).Ok? <==> AcceptsAttempt(c, e, d, token, w, a, now)
  {
    if d in e.results { assert ResultOk(c, e, d); }
    if OpenForAttempt(e, d) { NoGenerationYet(e, d, if d in e.results then e.results[d].generation else 1); }
  }

  lemma AttemptWrites(c: Core, e: Exec, d: DispatchId, token: int, w: WorkerId, retrySafe: bool, a: AttemptId, now: int)
    requires Consistent(c) && Executes(c, e) && Acquire(c, e, d, token, w, retrySafe, a, now).Ok?
    ensures var r := Acquire(c, e, d, token, w, retrySafe, a, now).value;
            if HasAttempt(e, d, w) then AttemptGoesOn(e, r.0, r.1, d, token, w)
            else AttemptBegins(c, e, r.0, r.1, d, token, w, retrySafe, a)
  { if d in e.results { assert ResultOk(c, e, d); } }

  // ---- _stage_owned_result, _record_authority_lost, renew_execution_lease ----

  /** The context names the running attempt of its dispatch. */
  predicate RunsUnder(e: Exec, x: Context) {
    && x.dispatch in e.results
    && var r := e.results[x.dispatch];
    r.state == InProgress && r.generation == x.generation && r.owner == Some(x.owner) && r.current == Some(x.attempt)
  }

  /** Only the result row of the dispatch and the state of the attempt change. */
  ghost predicate ResultIs(e: Exec, f: Exec, d: DispatchId, a: AttemptId, r: ResultRow, s: AttemptState) {
    && d in e.results && a in e.attempts && f.results == e.results[d := r]
    && f.attempts == e.attempts[a := e.attempts[a].(state := s)]
  }

  predicate AcceptsStage(c: Core, e: Exec, x: Context, outcome: Status, now: int) {
    (outcome == Completed || outcome == Blocked) && HoldsLease(c, x.dispatch, x.token, now) && RunsUnder(e, x)
  }

  lemma StageAccepted(c: Core, e: Exec, x: Context, outcome: Status, result: nat, now: int)
    ensures Stage(c, e, x, outcome, result, now).Ok? <==> AcceptsStage(c, e, x, outcome, now)
  { }

  lemma RunningRow(c: Core, e: Exec, x: Context)
    requires Executes(c, e) && RunsUnder(e, x)
    ensures x.attempt in e.attempts && e.attempts[x.attempt].state == AttemptRunning
  { assert ResultOk(c, e, x.dispatch); }

  /** The outcome is staged with exactly this result, under the name of the attempt. */
  ghost predicate Staged(e: Exec, f: Exec, x: Context, outcome: Status, result: nat) {
    && x.dispatch in e.results
    && ResultIs(e, f, x.dispatch, x.attempt,
                e.results[x.dispatch].(state := ResultReady, outcome := Some(outcome),
                                       payload := StagedDoc(x.dispatch, x.generation, x.owner, x.attempt, result)), AttemptReady)
  }

  /** The running attempt of the context is fenced off and its dispatch gets no result; any other context changes nothing. */
  ghost predicate LosesAuthority(e: Exec, f: Exec, x: Context) {
    if RunsUnder(e, x) then
      ResultIs(e, f, x.dispatch, x.attempt,
               e.results[x.dispatch].(state := AuthorityLost, outcome := Some(Stale), owner := None), AttemptFenced)
    else f == e
  }

  lemma StageWrites(c: Core, e: Exec, x: Context, outcome: Status, result: nat, now: int)
    requires Executes(c, e) && Stage(c, e, x, outcome, result, now).Ok?
    ensures Staged(e, Stage(c, e, x, outcome, result, now).value, x, outcome, result)
  { RunningRow(c, e, x); }

  lemma AuthorityWrites(c: Core, e: Exec, x: Context)
    requires Executes(c, e)
    ensures LosesAuthority(e, RecordAuthorityLost(e, x), x)
  { if RunsUnder(e, x) { RunningRow(c, e, x); } }

  /** A lease is renewed for the current attempt as long as its result is not final. */
  predicate AcceptsRenewal(c: Core, e: Exec, x: Context, ttl: int, now: int) {
    && 30 <= ttl <= 3600 && HoldsLease(c, x.dispatch, x.token, now) && x.dispatch in e.results
    && var r := e.results[x.dispatch];
    && r.generation == x.generation && r.owner == Some(x.owner) && r.current == Some(x.attempt)
    && (r.state == InProgress || r.state == ResultReady)
  }

  lemma RenewalAccepted(c: Core, e: Exec, x: Context, ttl: int, now: int)
    ensures RenewExecution(c, e, x, ttl, now).Ok? <==> AcceptsRenewal(c, e, x, ttl, now)
    ensures RenewExecution(c, e, x, ttl, now).Ok? ==>
              BeatsOnly(c, RenewExecution(c, e, x, ttl, now).value, c.outbox[x.dispatch].lease, x.token, Some(now + ttl), now)
  { }

  // ---- _commit_staged_result ----

  /** A staged result is committed under its own fence if the store accepts the ending that it asks for. */
  predicate AcceptsCommit(c: Core, e: Exec, d: DispatchId, token: int, now: int) {
    && d in e.results && e.results[d].state == ResultReady && e.results[d].outcome.Some? && token == e.results[d].token
    && AcceptsEnding(c, e.results[d].lease, token, e.results[d].outcome.value, e.results[d].payload, now)
  }

  /** The staged row and its attempt are final, and the lease has ended with the staged outcome and payload, now or before. */
  ghost predicate Commits(a: Core, e: Exec, b: Core, f: Exec, d: DispatchId, now: int) {
    && d in e.results && e.results[d].outcome.Some? && e.results[d].current.Some?
    && var r := e.results[d];
    && var done := r.outcome.value == Completed;
    && ResultIs(e, f, d, r.current.value, r.(state := if done then Succeeded else Failed, owner := None),
                if done then AttemptSucceeded else AttemptFailed)
    && if LeaseLive(a, r.lease) then LeaseEnds(a, b, r.lease, r.outcome.value, r.payload, now) else b == a
  }

  lemma CommitAccepted(c: Core, e: Exec, d: DispatchId, token: int, now: int)
    requires Consistent(c) && Executes(c, e) && d in e.results && e.results[d].state == ResultReady
    ensures var t := ReadStaged(e, d);
            t.Ok? && (t.value.token == token && Seal(c, t.value, now).Ok? <==> AcceptsCommit(c, e, d, token, now))
  {
    assert ResultOk(c, e, d);
    var r := e.results[d];
    EndingAccepted(c, r.lease, r.token, r.outcome.value, r.payload, now);
  }

  lemma CommitWrites(c: Core, e: Exec, d: DispatchId, now: int)
    requires Consistent(c) && Executes(c, e) && d in e.results && e.results[d].state == ResultReady
    requires var t := ReadStaged(e, d); t.Ok? && Seal(c, t.value, now).Ok?
    ensures var t := ReadStaged(e, d).value;
            Finish(e, t).Ok? && Commits(c, e, Seal(c, t, now).value, Finish(e, t).value, d, now)
  {
    assert ResultOk(c, e, d);
    var r := e.results[d];
    TerminalWrites(c, r.lease, r.token, r.outcome.value, r.payload, now);
  }

  // ---- recovery ----

  /** A worker can carry on an overdue lease whose dispatch it knows how to execute, that no other run has, and whose
      result is staged or may be tried again. */
  predicate CanCarryOn(c: Core, e: Exec, l: LeaseId, kinds: set<nat>, now: int, sla: int)
    requires l in c.claims && c.claims[l].dispatch in c.outbox
  {
    var r, d := c.claims[l], c.claims[l].dispatch;
    var o := c.outbox[d];
    && Live(r) && (r.expiresAt <= now || now - r.heartbeatAt > sla) && o.kind in kinds
    && (o.state == Pending || o.state == Dispatched) && (o.run.None? || o.run == Some(LocalRun(d)))
    && (d in e.results ==> e.results[d].state == ResultReady || (e.results[d].state == InProgress && e.results[d].retrySafe))
  }

  predicate SameAttempt(e: Exec, f: Exec, a: AttemptId)
    requires a in e.attempts
  {
    a in f.attempts && f.attempts[a] == e.attempts[a]
  }

  /** An attempt that was running is fenced off. */
  predicate FencedOff(e: Exec, f: Exec, a: AttemptId)
    requires a in e.attempts
  {
    && a in f.attempts
    && f.attempts[a] == if e.attempts[a].state == AttemptRunning then e.attempts[a].(state := AttemptFenced) else e.attempts[a]
  }

  /** The lease goes on for `ttl` seconds under the next fence, which lane, dispatch and result get too; the attempt that ran
      is fenced off, and a staged result keeps its payload. */
  ghost predicate CarriedOn(c: Core, e: Exec, b: Core, f: Exec, l: LeaseId, ttl: int, now: int)
    requires l in c.claims && c.claims[l].dispatch in c.outbox && c.claims[l].lane in c.lanes
  {
    var r, d := c.claims[l], c.claims[l].dispatch;
    var fence := c.lanes[r.lane].fence + 1;
    && l in b.claims
    && b.claims[l] == r.(token := fence, expiresAt := now + ttl, heartbeatAt := now, status := Recovered, reason := NoDoc)
    && r.lane in b.lanes && b.lanes[r.lane] == c.lanes[r.lane].(fence := fence, state := HasClaim, current := Some(r.delegation))
    && d in b.outbox && b.outbox[d] == c.outbox[d].(token := fence)
    && (d in f.results <==> d in e.results)
    && (d in e.results && e.results[d].state == InProgress ==>
          f.results[d] == e.results[d].(token := fence, generation := e.results[d].generation + 1, owner := None, current := None))
    && (d in e.results && e.results[d].state == ResultReady ==> f.results[d] == e.results[d].(token := fence, owner := None))
    && forall a {:trigger FencedOff(e, f, a)} :: a in e.attempts && e.attempts[a].dispatch == d ==> FencedOff(e, f, a)
  }

  /** Claim, lane, dispatch and result of the lease are as before. */
  ghost predicate LeftAlone(c: Core, e: Exec, b: Core, f: Exec, l: LeaseId)
    requires l in c.claims
  {
    var r, d := c.claims[l], c.claims[l].dispatch;
    && l in b.claims && b.claims[l] == r && d in c.outbox && d in b.outbox && b.outbox[d] == c.outbox[d]
    && (Live(r) ==> r.lane in c.lanes && r.lane in b.lanes && b.lanes[r.lane] == c.lanes[r.lane])
    && (d in f.results <==> d in e.results) && (d in e.results ==> f.results[d] == e.results[d])
    && forall a {:trigger SameAttempt(e, f, a)} :: a in e.attempts && e.attempts[a].dispatch == d ==> SameAttempt(e, f, a)
  }

  lemma RefenceSelf(c: Core, e: Exec, l: LeaseId, ttl: int, now: int)
    requires Consistent(c) && Executes(c, e) && LeaseLive(c, l) && c.claims[l].lane in c.lanes
    requires c.claims[l].dispatch in e.results ==>
               e.results[c.claims[l].dispatch].state == InProgress || e.results[c.claims[l].dispatch].state == ResultReady
    ensures c.claims[l].dispatch in c.outbox
    ensures CarriedOn(c, e, Refence(c, l, ttl, now),
                      RefenceResult(e, c.claims[l].dispatch, c.lanes[c.claims[l].lane].fence + 1), l, ttl, now)
  {
    var d := c.claims[l].dispatch;
    assert ClaimOk(c, l);
    forall a | a in e.attempts && e.attempts[a].dispatch == d && e.attempts[a].state == AttemptRunning
      ensures d in e.results && e.results[d].state == InProgress && e.results[d].current == Some(a)
    { assert AttemptOk(e, a); }
    if d in e.results { assert ResultOk(c, e, d); }
  }

  lemma RefenceOther(c: Core, e: Exec, l: LeaseId, ttl: int, now: int, x: LeaseId)
    requires Consistent(c) && Executes(c, e) && LeaseLive(c, l) && c.claims[l].lane in c.lanes && x in c.claims && x != l
    ensures LeftAlone(c, e, Refence(c, l, ttl, now),
                      RefenceResult(e, c.claims[l].dispatch, c.lanes[c.claims[l].lane].fence + 1), x)
  {
    assert ClaimOk(c, l) && ClaimOk(c, x);
    if c.claims[l].dispatch in e.results { assert ResultOk(c, e, c.claims[l].dispatch); }
  }

  lemma AloneSame(c: Core, e: Exec, x: LeaseId)
    requires Consistent(c) && x in c.claims
    ensures LeftAlone(c, e, c, e, x)
  { assert ClaimOk(c, x); }

  ghost predicate OneCarried(c: Core, e: Exec, b: Core, f: Exec, l: LeaseId, tried: bool, kinds: set<nat>, ttl: int, now: int, sla: int)
    requires l in c.claims
  {
    && c.claims[l].dispatch in c.outbox && c.claims[l].lane in c.lanes
    && if tried && CanCarryOn(c, e, l, kinds, now, sla) then CarriedOn(c, e, b, f, l, ttl, now) else LeftAlone(c, e, b, f, l)
  }

  lemma CarriesExactly(c: Core, e: Exec, l: LeaseId, kinds: set<nat>, now: int, sla: int)
    requires LeaseLive(c, l) && c.claims[l].dispatch in c.outbox
    ensures CanCarryOn(c, e, l, kinds, now, sla)
            <==> Recoverable(c.claims[l], c.outbox[c.claims[l].dispatch], ResultOf(e, c.claims[l].dispatch), kinds, c.claims[l].dispatch,
                             now, sla)
  { }

  lemma RecoverLocalOneRows(c: Core, e: Exec, l: LeaseId, kinds: set<nat>, ttl: int, now: int, sla: int, x: LeaseId)
    requires Consistent(c) && Executes(c, e) && LeaseLive(c, l) && x in c.claims
    ensures RecoverLocalOne(c, e, l, kinds, ttl, now, sla).Ok?
    ensures var r := RecoverLocalOne(c, e, l, kinds, ttl, now, sla).value; OneCarried(c, e, r.0, r.1, x, x == l, kinds, ttl, now, sla)
  {
    RecoverLocalOneIs(c, e, l, kinds, ttl, now, sla);
    assert ClaimOk(c, l) && ClaimOk(c, x);
    assert Active(c, l, c.claims[l].lane);
    CarriesExactly(c, e, l, kinds, now, sla);
    if CanCarryOn(c, e, l, kinds, now, sla) {
      assert RecoverLocalOne(c, e, l, kinds, ttl, now, sla).value
          == (Refence(c, l, ttl, now), RefenceResult(e, c.claims[l].dispatch, c.lanes[c.claims[l].lane].fence + 1));
      if x == l { RefenceSelf(c, e, l, ttl, now); } else { RefenceOther(c, e, l, ttl, now, x); }
    } else {
      assert RecoverLocalOne(c, e, l, kinds, ttl, now, sla).value == (c, e);
      AloneSame(c, e, x);
    }
  }

  lemma AloneThenCarried(
    c: Core, e: Exec, b: Core, f: Exec, d: Core, g: Exec, l: LeaseId, tried: bool, kinds: set<nat>, ttl: int, now: int, sla: int)
    requires l in c.claims && LeftAlone(c, e, b, f, l) && c.claims[l].lane in c.lanes && (tried ==> Live(c.claims[l]))
    requires l in b.claims && OneCarried(b, f, d, g, l, tried, kinds, ttl, now, sla)
    ensures OneCarried(c, e, d, g, l, tried, kinds, ttl, now, sla)
  {
    forall a | a in e.attempts && e.attempts[a].dispatch == c.claims[l].dispatch
      ensures a in f.attempts && f.attempts[a].dispatch == c.claims[l].dispatch
      ensures SameAttempt(f, g, a) ==> SameAttempt(e, g, a)
      ensures FencedOff(f, g, a) ==> FencedOff(e, g, a)
    { assert SameAttempt(e, f, a); }
  }

  lemma CarriedThenAlone(
    c: Core, e: Exec, b: Core, f: Exec, d: Core, g: Exec, l: LeaseId, ttl: int, now: int)
    requires l in c.claims && c.claims[l].dispatch in c.outbox && c.claims[l].lane in c.lanes && Live(c.claims[l])
    requires CarriedOn(c, e, b, f, l, ttl, now) && LeftAlone(b, f, d, g, l)
    ensures CarriedOn(c, e, d, g, l, ttl, now)
  {
    forall a | a in e.attempts && e.attempts[a].dispatch == c.claims[l].dispatch ensures FencedOff(e, g, a) {
      assert FencedOff(e, f, a) && SameAttempt(f, g, a);
    }
  }

  lemma {:induction false} RecoverLocalAllRows(
    c: Core, e: Exec, rows: seq<LeaseId>, kinds: set<nat>, ttl: int, now: int, sla: int, x: LeaseId)
    requires Consistent(c) && Executes(c, e) && Distinct(rows) && AllLive(c, rows) && x in c.claims
    ensures RecoverLocalAll(c, e, rows, kinds, ttl, now, sla).Ok?
    ensures var r := RecoverLocalAll(c, e, rows, kinds, ttl, now, sla).value;
            OneCarried(c, e, r.0, r.1, x, x in rows, kinds, ttl, now, sla)
    decreases |rows|
  {
    assert ClaimOk(c, x);
    if rows == [] { AloneSame(c, e, x); }
    else {
      assert rows[0] in rows;
      RecoverLocalOneRows(c, e, rows[0], kinds, ttl, now, sla, x);
      var one := RecoverLocalOne(c, e, rows[0], kinds, ttl, now, sla).value;
      RecoverLocalOneKeeps(c, e, rows[0], kinds, ttl, now, sla);
      RecoverLocalTail(c, e, rows, kinds, ttl, now, sla);
      RecoverLocalAllRows(one.0, one.1, rows[1..], kinds, ttl, now, sla, x);
      var r := RecoverLocalAll(c, e, rows, kinds, ttl, now, sla).value;
      forall y | y in rows[1..] ensures y in rows && y != rows[0] { }
      CarryTwice(c, e, one.0, one.1, r.0, r.1, x, x == rows[0], x in rows[1..], kinds, ttl, now, sla);
    }
  }

  lemma CarryTwice(
    c: Core, e: Exec, b: Core, f: Exec, d: Core, g: Exec, l: LeaseId, first: bool, then': bool, kinds: set<nat>, ttl: int, now: int,
    sla: int)
    requires l in c.claims && OneCarried(c, e, b, f, l, first, kinds, ttl, now, sla) && !(first && then')
    requires l in b.claims && OneCarried(b, f, d, g, l, then', kinds, ttl, now, sla) && (first || then' ==> Live(c.claims[l]))
    ensures OneCarried(c, e, d, g, l, first || then', kinds, ttl, now, sla)
  {
    if first && CanCarryOn(c, e, l, kinds, now, sla) { CarriedThenAlone(c, e, b, f, d, g, l, ttl, now); }
    else { AloneThenCarried(c, e, b, f, d, g, l, then', kinds, ttl, now, sla); }
  }

  /** Delegations stay, and so do the lanes without a live lease. */
  ghost predicate IdleKept(c: Core, b: Core) {
    && b.delegations == c.delegations && b.claims.Keys == c.claims.Keys && b.outbox.Keys == c.outbox.Keys
    && b.lanes.Keys == c.lanes.Keys
    && (forall l :: l in c.claims ==> b.claims[l].lane == c.claims[l].lane && Live(b.claims[l]) == Live(c.claims[l]))
    && forall x {:trigger b.lanes[x]} :: x in c.lanes && !LaneBusy(c, x) ==> b.lanes[x] == c.lanes[x]
  }

  lemma RefenceIdle(c: Core, e: Exec, l: LeaseId, kinds: set<nat>, ttl: int, now: int, sla: int)
    requires Consistent(c) && Executes(c, e) && LeaseLive(c, l)
    ensures RecoverLocalOne(c, e, l, kinds, ttl, now, sla).Ok?
    ensures IdleKept(c, RecoverLocalOne(c, e, l, kinds, ttl, now, sla).value.0)
  {
    assert ClaimOk(c, l) && LaneBusy(c, c.claims[l].lane);
    RecoverLocalOneIs(c, e, l, kinds, ttl, now, sla);
  }

  lemma IdleTwice(a: Core, b: Core, c: Core)
    requires IdleKept(a, b) && IdleKept(b, c)
    ensures IdleKept(a, c)
  {
    forall x | x in a.lanes && !LaneBusy(a, x) ensures c.lanes[x] == a.lanes[x] {
      forall l | l in b.claims && Live(b.claims[l]) ensures b.claims[l].lane != x { assert l in a.claims; }
      assert b.lanes[x] == a.lanes[x];
    }
  }

  lemma {:induction false} RecoverLocalIdle(c: Core, e: Exec, rows: seq<LeaseId>, kinds: set<nat>, ttl: int, now: int, sla: int)
    requires Consistent(c) && Executes(c, e) && Distinct(rows) && AllLive(c, rows)
    ensures RecoverLocalAll(c, e, rows, kinds, ttl, now, sla).Ok?
    ensures IdleKept(c, RecoverLocalAll(c, e, rows, kinds, ttl, now, sla).value.0)
    decreases |rows|
  {
    if rows != [] {
      assert rows[0] in rows;
      RefenceIdle(c, e, rows[0], kinds, ttl, now, sla);
      var one := RecoverLocalOne(c, e, rows[0], kinds, ttl, now, sla).value;
      RecoverLocalOneKeeps(c, e, rows[0], kinds, ttl, now, sla);
      RecoverLocalTail(c, e, rows, kinds, ttl, now, sla);
      RecoverLocalIdle(one.0, one.1, rows[1..], kinds, ttl, now, sla);
      IdleTwice(c, one.0, RecoverLocalAll(c, e, rows, kinds, ttl, now, sla).value.0);
    }
  }

  /** All that the local recovery does to leases: exactly the live ones that can be carried on are. */
  ghost predicate CarriesOn(c: Core, e: Exec, b: Core, f: Exec, kinds: set<nat>, ttl: int, now: int, sla: int) {
    && IdleKept(c, b)
    && forall l {:trigger OneCarried(c, e, b, f, l, true, kinds, ttl, now, sla)} :: l in c.claims ==>
         OneCarried(c, e, b, f, l, true, kinds, ttl, now, sla)
  }

  lemma RecoverLocalWrites(c: Core, e: Exec, rows: seq<LeaseId>, kinds: set<nat>, ttl: int, now: int, sla: int)
    requires Consistent(c) && Executes(c, e) && Lists(rows, LiveLeases(c))
    ensures RecoverLocal(c, e, rows, kinds, ttl, now, sla).Ok?
    ensures var r := RecoverLocal(c, e, rows, kinds, ttl, now, sla).value; CarriesOn(c, e, r.0, r.1, kinds, ttl, now, sla)
  {
    RecoverLocalIdle(c, e, rows, kinds, ttl, now, sla);
    var r := RecoverLocal(c, e, rows, kinds, ttl, now, sla).value;
    forall l | l in c.claims ensures OneCarried(c, e, r.0, r.1, l, true, kinds, ttl, now, sla) {
      RecoverLocalAllRows(c, e, rows, kinds, ttl, now, sla, l);
    }
  }

  /** What was unfinished under the reported leases loses its authority, and its running attempt is fenced off; no other row
      changes. */
  ghost predicate Abandons(e: Exec, f: Exec, stale: set<LeaseId>) {
    && f.results.Keys == e.results.Keys && f.attempts.Keys == e.attempts.Keys
    && (forall d {:trigger f.results[d]} :: d in e.results ==>
          f.results[d] == if Unfinished(e, d, stale)
                          then e.results[d].(state := AuthorityLost, outcome := Some(Stale), owner := None) else e.results[d])
    && forall a {:trigger f.attempts[a]} :: a in e.attempts ==>
         f.attempts[a] == if e.attempts[a].state == AttemptRunning && Unfinished(e, e.attempts[a].dispatch, stale)
                          then e.attempts[a].(state := AttemptFenced) else e.attempts[a]
  }

  predicate Unfinished(e: Exec, d: DispatchId, stale: set<LeaseId>) {
    d in e.results && e.results[d].lease in stale && (e.results[d].state == InProgress || e.results[d].state == ResultReady)
  }

  lemma AbandonWrites(c: Core, e: Exec, stale: set<LeaseId>)
    requires Executes(c, e)
    ensures Abandons(e, MarkAuthorityLost(e, stale), stale)
  {
    var f := MarkAuthorityLost(e, stale);
    forall a | a in e.attempts
      ensures f.attempts[a] == if e.attempts[a].state == AttemptRunning && Unfinished(e, e.attempts[a].dispatch, stale)
                               then e.attempts[a].(state := AttemptFenced) else e.attempts[a]
    { assert AttemptOk(e, a); }
  }
}
