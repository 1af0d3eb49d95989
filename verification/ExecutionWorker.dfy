/** The execution worker (a01_execution_worker.py): result and attempt tables beside the store. */
module ExecutionWorker {
  import opened Wrappers
  import opened Tables
  import opened Queries
  import opened SupervisorSpec
  import opened SupervisorInvariants
  import opened SupervisorSafety
  import opened StoreSteps
  import opened SupervisorStore
  import opened ExecutionSpec
  import opened ExecutionSafety
  import opened LeaseRecovery
  import opened SupervisorEffects
  import opened ExecutionEffects

  // ---- What a worker can rely on while it holds both fences ----

  /** The context names the running attempt, and the lease is live under its fence, apart from the clock. */
  predicate Working(c: Core, e: Exec, x: Context) {
    && x.dispatch in c.outbox && Authority(c, c.outbox[x.dispatch].lease, x.token)
    && Owns(e, x) && e.results[x.dispatch].state == InProgress
  }

  function Deadline(c: Core, d: DispatchId): int
    requires d in c.outbox && c.outbox[d].lease in c.claims
  {
    c.claims[c.outbox[d].lease].expiresAt
  }

  function TheDelegation(c: Core, d: DispatchId): DelegationId
    requires d in c.outbox && c.outbox[d].lease in c.claims
  {
    c.claims[c.outbox[d].lease].delegation
  }

  /** The work is completed by an evaluator only. */
  predicate NeedsEvaluator(c: Core, d: DispatchId)
    requires d in c.outbox && c.outbox[d].lease in c.claims
  {
    TheDelegation(c, d) in c.delegations && c.delegations[TheDelegation(c, d)].evaluated
  }

  /** No other run has acknowledged the dispatch. */
  predicate OwnRun(c: Core, d: DispatchId)
    requires d in c.outbox
  {
    c.outbox[d].run.None? || c.outbox[d].run == Some(LocalRun(d))
  }

  // ---- What happens while the executor runs ----

  /** The executor returns a result, raises an error, or finds its authority gone and raises that. */
  datatype Report = Returned | Raised | RaisedStale

  ghost predicate Right(c: Core, e: Exec) { Consistent(c) && KeysDiffer(c) && Executes(c, e) }

  /** What other actors make of the tables. */
  type Others = (Core, Exec) -> (Core, Exec)

  /** All that is known of the others is that they leave right tables behind. */
  ghost predicate KeepsRight(others: Others) { forall c: Core, e: Exec :: Right(c, e) ==> Right(others(c, e).0, others(c, e).1) }

  predicate TtlOk(ttl: int) { 30 <= ttl <= 3600 }

  /** The worker goes on with the given deadline, and nothing else that its outcome depends on has changed. */
  predicate GoesOn(c: Core, e: Exec, x: Context, b: Core, deadline: int)
    requires x.dispatch in c.outbox && c.outbox[x.dispatch].lease in c.claims
  {
    && Working(b, e, x) && Deadline(b, x.dispatch) == deadline
    && NeedsEvaluator(b, x.dispatch) == NeedsEvaluator(c, x.dispatch) && OwnRun(b, x.dispatch) == OwnRun(c, x.dispatch)
  }

  lemma RenewsExactly(c: Core, e: Exec, x: Context, ttl: int, now: int)
    requires Consistent(c) && Working(c, e, x)
    ensures RenewExecution(c, e, x, ttl, now).Ok? <==> TtlOk(ttl) && Deadline(c, x.dispatch) > now
    ensures RenewExecution(c, e, x, ttl, now).Ok? ==> GoesOn(c, e, x, RenewExecution(c, e, x, ttl, now).value, now + ttl)
    ensures TtlOk(ttl) && Deadline(c, x.dispatch) <= now ==> RenewExecution(c, e, x, ttl, now) == Err(StaleWorker)
  { }

  lemma AcknowledgesExactly(c: Core, e: Exec, x: Context, now: int)
    requires Consistent(c) && Working(c, e, x)
    ensures var r := SupervisorSpec.MarkDispatched(c, x.dispatch, LocalRun(x.dispatch), now);
            if OwnRun(c, x.dispatch) then r.Ok? && GoesOn(c, e, x, r.value, Deadline(c, x.dispatch)) else r == Err(Conflict)
  { assert OutboxRowOk(c, x.dispatch); }

  /** The tables after the executor: it runs only under the worker's own run. */
  ghost function Found(c: Core, e: Exec, x: Context, ttl: int, now: int, others: Others): (Core, Exec) {
    var renewed := RenewExecution(c, e, x, ttl, now);
    if renewed.Err? then (c, e)
    else
      var started := SupervisorSpec.MarkDispatched(renewed.value, x.dispatch, LocalRun(x.dispatch), now);
      if started.Err? then (renewed.value, e) else others(started.value, e)
  }

  /** If nobody else moves, the worker finds its lease renewed and everything else that matters as it was. */
  lemma Undisturbed(c: Core, e: Exec, x: Context, ttl: int, now: int, others: Others)
    requires Consistent(c) && Working(c, e, x) && TtlOk(ttl) && Deadline(c, x.dispatch) > now
    requires forall b: Core, f: Exec :: others(b, f) == (b, f)
    ensures var t := Found(c, e, x, ttl, now, others); t.1 == e && GoesOn(c, e, x, t.0, now + ttl)
  {
    RenewsExactly(c, e, x, ttl, now);
    BeatSound(c, c.outbox[x.dispatch].lease, x.token, Some(now + ttl), LeaseRenewed, now);
    AcknowledgesExactly(RenewExecution(c, e, x, ttl, now).value, e, x, now);
  }

  lemma StagesExactly(c: Core, e: Exec, x: Context, outcome: Status, result: nat, now: int)
    requires Consistent(c) && Working(c, e, x) && Deadline(c, x.dispatch) > now && (outcome == Completed || outcome == Blocked)
    ensures var r := Stage(c, e, x, outcome, result, now);
            && r.Ok? && x.dispatch in r.value.results && r.value.results[x.dispatch].state == ResultReady
            && r.value.results[x.dispatch].outcome == Some(outcome)
            && r.value.results[x.dispatch].payload == StagedDoc(x.dispatch, x.generation, x.owner, x.attempt, result)
  { }

  /** A staged result of a live lease is committed unless an evaluator has to complete the work. */
  lemma CommitsExactly(c: Core, e: Exec, d: DispatchId, token: int, now: int)
    requires Consistent(c) && Executes(c, e) && d in e.results && e.results[d].state == ResultReady
    requires d in c.outbox && LiveWorker(c, c.outbox[d].lease, token, now)
    ensures var t := ReadStaged(e, d);
            && t.Ok? && t.value.token == token && t.value.outcome == e.results[d].outcome.value && t.value.payload == e.results[d].payload
            && (Seal(c, t.value, now).Ok? <==> !(t.value.outcome == Completed && NeedsEvaluator(c, d)))
            && (Seal(c, t.value, now).Err? ==> Seal(c, t.value, now) == Err(Conflict))
  { assert ResultOk(c, e, d); }

  /** The final row that the work under this context ends in. */
  predicate EndsIn(r: ResultRow, x: Context, done: bool, result: nat) {
    && r.state == (if done then Succeeded else Failed)
    && r.payload == StagedDoc(x.dispatch, x.generation, x.owner, x.attempt, result)
  }

  lemma RecoveredStaysRight(
    c: Core, e: Exec, l: LeaseId, kinds: set<nat>, ttl: int, now: int, sla: int, b: Core, f: Exec)
    requires Consistent(c) && KeysDiffer(c) && Executes(c, e) && LeaseLive(c, l)
    requires RecoverLocalOne(c, e, l, kinds, ttl, now, sla) == Ok((b, f))
    ensures Consistent(b) && KeysDiffer(b) && Executes(b, f)
  {
    RecoverLocalOneKeeps(c, e, l, kinds, ttl, now, sla);
    KeysStayDifferent(c, b);
  }

  lemma {:induction false} LiveAfterTimeouts(c: Core, rows: seq<LeaseId>, now: int, l: LeaseId)
    requires Distinct(rows) && AllWaiting(c, rows) && LeaseLive(TimeoutAll(c, rows, now), l)
    requires forall x :: x in rows && x in c.claims ==> !Live(c.claims[x])
    ensures LeaseLive(c, l) && TimeoutAll(c, rows, now).claims[l] == c.claims[l]
    decreases |rows|
  {
    if rows != [] {
      var c1 := TimeoutOne(c, rows[0], now);
      assert rows[0] in rows;
      TailRows(c, c1, rows);
      LiveAfterTimeouts(c1, rows[1..], now, l);
    }
  }

  lemma {:induction false} LiveAfterExpiry(c: Core, rows: seq<LeaseId>, now: int, sla: int, l: LeaseId)
    requires LeaseLive(RecoverLive(c, rows, now, sla), l)
    ensures LeaseLive(c, l) && RecoverLive(c, rows, now, sla).claims[l] == c.claims[l]
    ensures l in rows ==> !Expired(c.claims[l], now, sla)
    decreases |rows|
  {
    if rows != [] { LiveAfterExpiry(RecoverOne(c, rows[0], now, sla), rows[1..], now, sla, l); }
  }

  /** After the supervisor's recovery no live lease is overdue. */
  lemma NoneExpired(c: Core, now: int, sla: int, live: seq<LeaseId>, waiting: seq<LeaseId>)
    requires Consistent(c) && SupervisorSpec.Recover(c, now, sla, live, waiting).Ok?
    ensures var b := SupervisorSpec.Recover(c, now, sla, live, waiting).value;
            forall l :: LeaseLive(b, l) ==> !Expired(b.claims[l], now, sla)
  {
    var c1 := RecoverLive(c, live, now, sla);
    RecoverLiveSound(c, live, now, sla);
    forall l | LeaseLive(TimeoutAll(c1, waiting, now), l) ensures !Expired(TimeoutAll(c1, waiting, now).claims[l], now, sla) {
      LiveAfterTimeouts(c1, waiting, now, l);
      LiveAfterExpiry(c, live, now, sla, l);
    }
  }

  class ExecutionWorker {
    const store: SupervisorStore
    const workerId: WorkerId
    const leaseSeconds: int
    const heartbeatSla: int
    const kinds: set<nat>
    var results: map<DispatchId, ResultRow>
    var attempts: map<AttemptId, AttemptRow>

    function Rows(): Exec reads this { Exec(results, attempts) }

    ghost predicate Valid() reads this, store { store.Valid() && Executes(store.Tables(), Rows()) }

    constructor (s: SupervisorStore, worker: WorkerId, ttl: int, sla: int, executors: set<nat>)
      requires s.Valid()
      ensures Valid() && store == s && workerId == worker && Rows() == Exec(map[], map[])
      ensures leaseSeconds == ttl && heartbeatSla == sla && kinds == executors
    {
      store, workerId, leaseSeconds, heartbeatSla, kinds := s, worker, ttl, sla, executors;
      results, attempts := map[], map[];
    }

    /** UPDATE of an attempt that must be in state `p`. */
    method MoveAttempt(a: AttemptId, p: AttemptState, q: AttemptState)
      modifies this`attempts
      ensures attempts == AttemptTo(old(Rows()), a, p, q)
    {
      if a in attempts && attempts[a].state == p { attempts := attempts[a := attempts[a].(state := q)]; }
    }

    // ---- _acquire_execution ----

    /** The uniqueness constraints on attempts. */
    method Collides(a: AttemptId, d: DispatchId, g: nat) returns (bad: bool)
      ensures bad == (a in attempts || GenerationTaken(Rows(), d, g))
    {
      var same := set x | x in attempts && attempts[x].dispatch == d && attempts[x].generation == g;
      bad := a in attempts || same != {};
      if same == {} {
        forall x | x in Rows().attempts && attempts[x].dispatch == d ensures attempts[x].generation != g { assert x !in same; }
      } else {
        var x :| x in same;
        assert x in Rows().attempts;
      }
    }

    method AcquireRows(d: DispatchId, token: int, retrySafe: bool, a: AttemptId, now: int) returns (r: Res<Context>)
      modifies this
      ensures var spec := Acquire(store.Tables(), old(Rows()), d, token, workerId, retrySafe, a, now);
              if spec.Ok? then Rows() == spec.value.0 && r == Ok(spec.value.1)
              else r == Err(spec.error) && Rows() == old(Rows())
    {
      if d !in store.outbox { return Err(Conflict); }
      if token < 0 || !LiveWorker(store.Tables(), store.outbox[d].lease, token, now) { return Err(StaleWorker); }
      if d !in results {
        var bad := Collides(a, d, 1);
        if bad { return Err(Conflict); }
        results := results[d := ResultRow(store.outbox[d].lease, token, InputOf(d, store.outbox[d]), InProgress, None, 1, 1,
                                          Some(workerId), Some(a), retrySafe, NoDoc)];
        attempts := attempts[a := AttemptRow(d, 1, workerId, token, AttemptRunning)];
        r := Ok(Context(d, token, 1, workerId, a));
      } else {
        var row := results[d];
        var generation := row.generation;
        if generation < 1 { generation := 1; }
        if row.input != InputOf(d, store.outbox[d]) { return Err(Conflict); }
        if Final(row.state) || row.state == ResultReady { return Err(Busy); }
        if row.owner.Some? && row.owner.value != workerId { return Err(Busy); }
        if row.owner.Some? && row.current.Some? { return Ok(Context(d, token, row.generation, workerId, row.current.value)); }
        if row.state != InProgress || row.owner.Some? { return Err(Busy); }
        var bad := Collides(a, d, generation);
        if bad { return Err(Conflict); }
        results := results[d := row.(generation := generation, owner := Some(workerId), current := Some(a),
                                     retrySafe := retrySafe, count := row.count + 1)];
        attempts := attempts[a := AttemptRow(d, generation, workerId, token, AttemptRunning)];
        r := Ok(Context(d, token, generation, workerId, a));
      }
    }

    method AcquireExecution(d: DispatchId, token: int, retrySafe: bool, a: AttemptId, now: int) returns (r: Res<Context>)
      requires Valid()
      modifies this
      ensures Valid()
      ensures var spec := Acquire(store.Tables(), old(Rows()), d, token, workerId, retrySafe, a, now);
              if spec.Ok? then Rows() == spec.value.0 && r == Ok(spec.value.1)
              else r == Err(spec.error) && Rows() == old(Rows())
      ensures r.Ok? <==> AcceptsAttempt(store.Tables(), old(Rows()), d, token, workerId, a, now)
      ensures r.Ok? ==>
                if HasAttempt(old(Rows()), d, workerId) then AttemptGoesOn(old(Rows()), Rows(), r.value, d, token, workerId)
                else AttemptBegins(store.Tables(), old(Rows()), Rows(), r.value, d, token, workerId, retrySafe, a)
    {
      ghost var before := Rows();
      r := AcquireRows(d, token, retrySafe, a, now);
      AttemptAccepted(store.Tables(), before, d, token, workerId, retrySafe, a, now);
      if r.Ok? {
        AttemptWrites(store.Tables(), before, d, token, workerId, retrySafe, a, now);
        AcquireKeeps(store.Tables(), before, d, token, workerId, retrySafe, a, now);
      }
    }

    // ---- renew_execution_lease, _stage_owned_result, _record_authority_lost ----

    method RenewExecutionLease(x: Context, ttl: int, now: int) returns (r: Res<()>)
      requires Valid()
      modifies store
      ensures Valid()
      ensures Ends(r, RenewExecution(old(store.Tables()), Rows(), x, ttl, now), old(store.Tables()), store.Tables())
      ensures r.Ok? <==> AcceptsRenewal(old(store.Tables()), Rows(), x, ttl, now)
      ensures r.Ok? ==> BeatsOnly(old(store.Tables()), store.Tables(), old(store.outbox)[x.dispatch].lease, x.token, Some(now + ttl), now)
    {
      ghost var before := store.Tables();
      RenewalAccepted(before, Rows(), x, ttl, now);
      if ttl < 30 || ttl > 3600 { return Err(BadValue); }
      if x.dispatch !in store.outbox { return Err(Conflict); }
      if !Owns(Rows(), x) || Final(results[x.dispatch].state) { return Err(StaleWorker); }
      r := store.Beat(store.outbox[x.dispatch].lease, x.token, Some(now + ttl), LeaseRenewed, now);
      if r.Ok? {
        BeatSound(before, before.outbox[x.dispatch].lease, x.token, Some(now + ttl), LeaseRenewed, now);
        SupervisorKeepsExecution(before, store.Tables(), Rows());
      }
    }

    method StageOwnedResult(x: Context, outcome: Status, result: nat, now: int) returns (r: Res<()>)
      requires Valid()
      modifies this
      ensures Valid()
      ensures var spec := Stage(store.Tables(), old(Rows()), x, outcome, result, now);
              if spec.Ok? then r == Ok(()) && Rows() == spec.value else r == Err(spec.error) && Rows() == old(Rows())
      ensures r.Ok? <==> AcceptsStage(store.Tables(), old(Rows()), x, outcome, now)
      ensures r.Ok? ==> Staged(old(Rows()), Rows(), x, outcome, result)
    {
      ghost var before := Rows();
      StageAccepted(store.Tables(), before, x, outcome, result, now);
      if outcome != Completed && outcome != Blocked { return Err(BadValue); }
      if x.dispatch !in store.outbox { return Err(Conflict); }
      if !LiveWorker(store.Tables(), store.outbox[x.dispatch].lease, x.token, now) { return Err(StaleWorker); }
      if !Owns(Rows(), x) || results[x.dispatch].state != InProgress { return Err(StaleWorker); }
      var doc := StagedDoc(x.dispatch, x.generation, x.owner, x.attempt, result);
      results := results[x.dispatch := results[x.dispatch].(state := ResultReady, outcome := Some(outcome), payload := doc)];
      MoveAttempt(x.attempt, AttemptRunning, AttemptReady);
      r := Ok(());
      StageWrites(store.Tables(), before, x, outcome, result, now);
      StageKeeps(store.Tables(), before, x, outcome, result, now);
    }

    method RecordAuthorityLost(x: Context)
      requires Valid()
      modifies this
      ensures Valid() && Rows() == ExecutionSpec.RecordAuthorityLost(old(Rows()), x)
      ensures LosesAuthority(old(Rows()), Rows(), x)
    {
      AuthorityWrites(store.Tables(), Rows(), x);
      RecordAuthorityLostKeeps(store.Tables(), Rows(), x);
      if Owns(Rows(), x) && results[x.dispatch].state == InProgress {
        results := results[x.dispatch := results[x.dispatch].(state := AuthorityLost, outcome := Some(Stale), owner := None)];
        MoveAttempt(x.attempt, AttemptRunning, AttemptFenced);
      }
    }

    // ---- _commit_staged_result ----

    /** The last write of a commit. */
    method FinishRows(t: Ticket)
      requires Valid() && TicketOk(Rows(), t) && SealOk(store.Tables(), t)
      modifies this
      ensures Valid() && Finish(old(Rows()), t) == Ok(Rows()) && Final(results[t.dispatch].state)
    {
      FinishKeeps(store.Tables(), Rows(), t);
      var row := results[t.dispatch];
      if row.state == ResultReady && row.generation == t.generation && row.current == t.attempt {
        results := results[t.dispatch := row.(state := FinalState(t), owner := None)];
      }
      MoveAttempt(t.attempt.value, AttemptReady, if t.outcome == Completed then AttemptSucceeded else AttemptFailed);
    }

    /** Two transactions; an error in the first leaves everything as it was. A final result is answered as it is. */
    method CommitStagedResult(d: DispatchId, token: int, now: int) returns (r: Res<ResultRow>)
      requires Valid()
      modifies this, store
      ensures Valid()
      ensures r.Err? ==> store.Tables() == old(store.Tables()) && Rows() == old(Rows())
      ensures r.Ok? ==> d in results && r.value == results[d] && Final(results[d].state)
      ensures d in old(results) && Final(old(results)[d].state) ==>
                r.Ok? && store.Tables() == old(store.Tables()) && Rows() == old(Rows())
      ensures d in old(results) && old(results)[d].state == ResultReady ==>
                var t := ReadStaged(old(Rows()), d);
                if t.Err? then r == Err(t.error)
                else if t.value.token != token then r == Err(StaleWorker)
                else
                  var sealed := Seal(old(store.Tables()), t.value, now);
                  if sealed.Err? then r == Err(sealed.error)
                  else r.Ok? && r.value.state == FinalState(t.value) && r.value.payload == t.value.payload
      ensures r.Ok? && !(d in old(results) && Final(old(results)[d].state)) ==>
                var t := ReadStaged(old(Rows()), d);
                t.Ok? && Seal(old(store.Tables()), t.value, now) == Ok(store.Tables()) && Finish(old(Rows()), t.value) == Ok(Rows())
      ensures d in old(results) && !Final(old(results)[d].state) ==>
                && (r.Ok? <==> AcceptsCommit(old(store.Tables()), old(Rows()), d, token, now))
                && (r.Ok? ==> Commits(old(store.Tables()), old(Rows()), store.Tables(), Rows(), d, now))
    {
      ghost var before, rows := store.Tables(), Rows();
      if d in results && results[d].state == ResultReady { CommitAccepted(before, rows, d, token, now); }
      if d !in results { return Err(Conflict); }
      if Final(results[d].state) { return Ok(results[d]); }
      var staged := ReadStaged(Rows(), d);
      if staged.Err? { return Err(staged.error); }
      var t := staged.value;
      if t.token != token { return Err(StaleWorker); }
      ReadStagedOk(before, rows, d);
      var sealed := store.TerminalTx(t.lease, t.token, t.outcome, t.payload, now);
      if sealed.Err? { return Err(sealed.error); }
      CommitWrites(before, rows, d, now);
      TerminalSound(before, t.lease, t.token, t.outcome, t.payload, now);
      SupervisorKeepsExecution(before, store.Tables(), rows);
      SealGives(before, t, now);
      FinishRows(t);
      r := Ok(results[d]);
    }

    // ---- consume_dispatch ----

    /** The context with which a fresh attempt begins, if it may begin. */
    ghost function Begins(c: Core, e: Exec, d: DispatchId, retrySafe: bool, a: AttemptId, now: int): (x: Option<Context>)
      ensures x.Some? ==> d in c.outbox && c.outbox[d].lease in c.claims
    {
      if d !in c.outbox || c.outbox[d].lease !in c.claims || !Live(c.claims[c.outbox[d].lease]) then None
      else if c.outbox[d].state != Pending && c.outbox[d].state != Dispatched then None
      else
        var r := Acquire(c, e, d, c.claims[c.outbox[d].lease].token, workerId, retrySafe, a, now);
        if r.Ok? then Some(r.value.1) else None
    }

    /** The execution tables with which it begins. */
    ghost function Acquired(c: Core, e: Exec, d: DispatchId, retrySafe: bool, a: AttemptId, now: int): Exec
      requires Begins(c, e, d, retrySafe, a, now).Some?
    {
      Acquire(c, e, d, c.claims[c.outbox[d].lease].token, workerId, retrySafe, a, now).value.0
    }

    /** A fresh attempt begins exactly on a dispatch that is pending or dispatched, of a live lease in time, that this
        worker has already or nobody has. */
    lemma BeginsExactly(c: Core, e: Exec, d: DispatchId, retrySafe: bool, a: AttemptId, now: int)
      requires Consistent(c) && Executes(c, e)
      ensures Begins(c, e, d, retrySafe, a, now).Some? <==>
                && d in c.outbox && (c.outbox[d].state == Pending || c.outbox[d].state == Dispatched)
                && c.outbox[d].lease in c.claims && AcceptsAttempt(c, e, d, c.claims[c.outbox[d].lease].token, workerId, a, now)
    {
      if d in c.outbox && c.outbox[d].lease in c.claims {
        AttemptAccepted(c, e, d, c.claims[c.outbox[d].lease].token, workerId, retrySafe, a, now);
      }
    }

    lemma BeginsWorking(c: Core, e: Exec, d: DispatchId, retrySafe: bool, a: AttemptId, now: int)
      requires Consistent(c) && Executes(c, e) && Begins(c, e, d, retrySafe, a, now).Some?
      ensures var x := Begins(c, e, d, retrySafe, a, now).value;
              var r := Acquire(c, e, d, c.claims[c.outbox[d].lease].token, workerId, retrySafe, a, now);
              r.Ok? && x == r.value.1 && x.dispatch == d && Working(c, r.value.0, x) && Deadline(c, d) > now
    { assert d in e.results ==> ResultOk(c, e, d); }

    /** When a fresh attempt under the context `x` ends its dispatch, and how: the worker comes back with both fences
        before its lease runs out, the executor did not see its authority gone, and does not report as completed what only
        an evaluator may complete. SUCCEEDED if it returned under the worker's own run, FAILED if it raised or another run
        had acknowledged the dispatch. */
    ghost predicate AttemptEnds(
      c: Core, e: Exec, x: Context, report: Report, result: nat, others: Others, now: int, end: int, r: Res<ResultRow>)
      requires x.dispatch in c.outbox
    {
      var t := Found(c, e, x, leaseSeconds, now, others);
      var done := report.Returned? && OwnRun(c, x.dispatch);
      && (r.Ok? <==>
            && TtlOk(leaseSeconds) && !(report.RaisedStale? && OwnRun(c, x.dispatch))
            && Working(t.0, t.1, x) && end < Deadline(t.0, x.dispatch) && !(done && NeedsEvaluator(t.0, x.dispatch)))
      && (r.Ok? ==> EndsIn(r.value, x, done, result))
    }

    method Acknowledge(d: DispatchId, now: int) returns (r: Res<()>)
      requires Valid()
      modifies store
      ensures Valid()
      ensures Ends(r, SupervisorSpec.MarkDispatched(old(store.Tables()), d, LocalRun(d), now), old(store.Tables()), store.Tables())
    {
      ghost var before := store.Tables();
      r := store.MarkDispatched(d, LocalRun(d), now);
      if r.Ok? {
        MarkDispatchedSound(before, d, LocalRun(d), now);
        SupervisorKeepsExecution(before, store.Tables(), Rows());
      }
    }

    /** The others move while the executor runs. */
    method Interleave(others: Others)
      requires Valid() && KeepsRight(others)
      modifies this, store
      ensures Valid() && (store.Tables(), Rows()) == others(old(store.Tables()), old(Rows()))
    {
      var t := others(store.Tables(), Rows());
      assert Right(store.Tables(), Rows());
      store.Restore(t.0);
      results, attempts := t.1.results, t.1.attempts;
      assert Right(store.Tables(), Rows());
    }

    method StageAndCommit(x: Context, outcome: Status, result: nat, end: int) returns (r: Res<ResultRow>)
      requires Valid() && (outcome == Completed || outcome == Blocked)
      modifies this, store
      ensures Valid()
      ensures r.Ok? ==> x.dispatch in results && r.value == results[x.dispatch] && Final(results[x.dispatch].state)
      ensures !TtlOk(leaseSeconds) ==> r.Err?
      ensures !Working(old(store.Tables()), old(Rows()), x) ==> r.Err? && !Working(store.Tables(), Rows(), x)
      ensures Working(old(store.Tables()), old(Rows()), x) && TtlOk(leaseSeconds) ==>
                var c := old(store.Tables());
                if Deadline(c, x.dispatch) <= end then r == Err(StaleWorker)
                else if outcome == Completed && NeedsEvaluator(c, x.dispatch)
                then r == Err(Conflict) && !Working(store.Tables(), Rows(), x)
                else r.Ok? && EndsIn(r.value, x, outcome == Completed, result)
    {
      ghost var c, e := store.Tables(), Rows();
      if Working(c, e, x) { RenewsExactly(c, e, x, leaseSeconds, end); }
      var step := RenewExecutionLease(x, leaseSeconds, end);
      if step.Err? { return Err(step.error); }
      if Working(c, e, x) { StagesExactly(store.Tables(), Rows(), x, outcome, result, end); }
      step := StageOwnedResult(x, outcome, result, end);
      if step.Err? { return Err(step.error); }
      if Working(c, e, x) { CommitsExactly(store.Tables(), Rows(), x.dispatch, x.token, end); }
      r := CommitStagedResult(x.dispatch, x.token, end);
    }

    /** After an error other than staleness the tables are those that the worker found, unless the executor returned: then
        the worker has nothing in progress any more. */
    method RunAndCommit(x: Context, report: Report, result: nat, others: Others, now: int, end: int)
      returns (r: Res<ResultRow>)
      requires Valid() && KeepsRight(others) && Working(store.Tables(), Rows(), x) && Deadline(store.Tables(), x.dispatch) > now
      modifies this, store
      ensures Valid()
      ensures r.Ok? ==> x.dispatch in results && r.value == results[x.dispatch] && Final(results[x.dispatch].state)
      ensures var c := old(store.Tables());
              var t := Found(c, old(Rows()), x, leaseSeconds, now, others);
              var done := report.Returned? && OwnRun(c, x.dispatch);
              && (r.Ok? <==> TtlOk(leaseSeconds) && done && Working(t.0, t.1, x) && end < Deadline(t.0, x.dispatch)
                             && !NeedsEvaluator(t.0, x.dispatch))
              && (r.Ok? ==> EndsIn(r.value, x, true, result))
              && (r.Err? && r.error == StaleWorker && TtlOk(leaseSeconds) ==>
                    done || (report.RaisedStale? && OwnRun(c, x.dispatch)))
              && (report.RaisedStale? && OwnRun(c, x.dispatch) && TtlOk(leaseSeconds) ==> r == Err(StaleWorker))
              && (r.Err? && r.error != StaleWorker && TtlOk(leaseSeconds) ==>
                    if done then !Working(store.Tables(), Rows(), x) else (store.Tables(), Rows()) == t)
    {
      RenewsExactly(store.Tables(), Rows(), x, leaseSeconds, now);
      var step := RenewExecutionLease(x, leaseSeconds, now);
      if step.Err? { return Err(step.error); }
      AcknowledgesExactly(store.Tables(), Rows(), x, now);
      step := Acknowledge(x.dispatch, now);
      if step.Err? { return Err(step.error); }
      Interleave(others);
      if report.RaisedStale? { return Err(StaleWorker); }
      if report.Raised? { return Err(Conflict); }
      r := StageAndCommit(x, Completed, result, end);
    }

    /** The part under the acquired generation: an error other than staleness is staged as BLOCKED, and staleness is
        recorded on the result row. */
    method Execute(x: Context, report: Report, result: nat, others: Others, now: int, end: int) returns (r: Res<ResultRow>)
      requires Valid() && KeepsRight(others) && Working(store.Tables(), Rows(), x) && Deadline(store.Tables(), x.dispatch) > now
      modifies this, store
      ensures Valid()
      ensures r.Ok? ==> x.dispatch in results && r.value == results[x.dispatch] && Final(results[x.dispatch].state)
      ensures AttemptEnds(old(store.Tables()), old(Rows()), x, report, result, others, now, end, r)
      ensures r.Err? && r.error == StaleWorker ==> !Working(store.Tables(), Rows(), x)
    {
      r := RunAndCommit(x, report, result, others, now, end);
      if r.Err? && r.error != StaleWorker { r := StageAndCommit(x, Blocked, result, end); }
      if r.Err? && r.error == StaleWorker { RecordAuthorityLost(x); }
    }

    /** A dispatch without a staged or final result. */
    method Attempt(
      d: DispatchId, retrySafe: bool, a: AttemptId, report: Report, result: nat, others: Others, now: int, end: int)
      returns (r: Res<ResultRow>)
      requires Valid() && KeepsRight(others) && d in store.outbox && store.outbox[d].lease in store.claims
      modifies this, store
      ensures Valid()
      ensures r.Ok? ==> d in results && r.value == results[d] && Final(results[d].state)
      ensures var c, e := old(store.Tables()), old(Rows());
              var x := Begins(c, e, d, retrySafe, a, now);
              if x.None? then r.Err?
              else
                && AttemptEnds(c, Acquired(c, e, d, retrySafe, a, now), x.value, report, result, others, now, end, r)
                && (r.Err? && r.error == StaleWorker ==> !Working(store.Tables(), Rows(), x.value))
    {
      ghost var c, e := store.Tables(), Rows();
      var bundle, claim := store.outbox[d], store.claims[store.outbox[d].lease];
      if !Live(claim) { return Err(StaleWorker); }
      if bundle.state != Pending && bundle.state != Dispatched { return Err(Conflict); }
      var context := AcquireExecution(d, claim.token, retrySafe, a, now);
      if context.Err? { return Err(context.error); }
      BeginsWorking(c, e, d, retrySafe, a, now);
      r := Execute(context.value, report, result, others, now, end);
    }

    /** One dispatch from acquisition to commit. The executor's report, what others do to the tables while it runs, the
        clock readings and the new attempt id are inputs. A final row is answered as it is, and a staged one is committed.
        A worker that lost its authority leaves no row in progress behind that is its own. */
    method ConsumeDispatch(
      d: DispatchId, retrySafe: bool, a: AttemptId, report: Report, result: nat, others: Others, now: int, end: int)
      returns (r: Res<ResultRow>)
      requires Valid() && KeepsRight(others)
      modifies this, store
      ensures Valid()
      ensures r.Ok? ==> d in results && r.value == results[d] && Final(results[d].state)
      ensures r.Ok? && r.value.state == Succeeded ==>
                r.value.lease in store.claims && store.claims[r.value.lease].status == Completed
                && store.claims[r.value.lease].reason == r.value.payload
      ensures r.Ok? && r.value.state == Failed ==>
                r.value.lease in store.claims && store.claims[r.value.lease].status == Blocked
                && store.claims[r.value.lease].reason == r.value.payload
      ensures d in old(results) && Final(old(results)[d].state) ==>
                r == Ok(old(results)[d]) && store.Tables() == old(store.Tables()) && Rows() == old(Rows())
      ensures d in old(results) && old(results)[d].state == ResultReady && r.Ok? ==>
                r.value.payload == old(results)[d].payload
                && r.value.state == (if old(results)[d].outcome == Some(Completed) then Succeeded else Failed)
      ensures !(d in old(results) && (Final(old(results)[d].state) || old(results)[d].state == ResultReady)) ==>
                var c, e := old(store.Tables()), old(Rows());
                var x := Begins(c, e, d, retrySafe, a, now);
                if x.None? then r.Err?
                else
                  && AttemptEnds(c, Acquired(c, e, d, retrySafe, a, now), x.value, report, result, others, now, end, r)
                  && (r.Err? && r.error == StaleWorker ==> !Working(store.Tables(), Rows(), x.value))
    {
      assert d in results ==> ResultOk(store.Tables(), Rows(), d);
      if d !in store.outbox || store.outbox[d].lease !in store.claims { return Err(Conflict); }
      if d in results && results[d].input != InputOf(d, store.outbox[d]) { return Err(Conflict); }
      if d in results && (Final(results[d].state) || results[d].state == ResultReady) {
        r := CommitStagedResult(d, store.claims[store.outbox[d].lease].token, now);
      } else {
        r := Attempt(d, retrySafe, a, report, result, others, now, end);
      }
      if r.Ok? { assert ResultOk(store.Tables(), Rows(), d); }
    }

    // ---- recovery ----

    /** The new fence in claim, lane, dispatch and log. */
    method RefenceClaim(l: LeaseId, now: int)
      requires l in store.claims && store.claims[l].lane in store.lanes && store.claims[l].dispatch in store.outbox
      modifies store
      ensures store.Tables() == Refence(old(store.Tables()), l, leaseSeconds, now)
    {
      var r := store.claims[l];
      var fence := store.lanes[r.lane].fence + 1;
      store.lanes := store.lanes[r.lane := store.lanes[r.lane].(fence := fence, state := HasClaim, current := Some(r.delegation))];
      store.claims := store.claims[l := r.(token := fence, expiresAt := now + leaseSeconds, heartbeatAt := now,
                                           status := Recovered, reason := NoDoc)];
      store.outbox := store.outbox[r.dispatch := store.outbox[r.dispatch].(token := fence)];
      store.events := store.events + [EventOf(now, LeaseRecovered, l, r, fence, NoDoc)];
    }

    method RefenceRow(d: DispatchId, fence: nat)
      modifies this
      ensures Rows() == RefenceResult(old(Rows()), d, fence)
    {
      if d in results {
        var r := results[d];
        if r.state == InProgress {
          if r.current.Some? { MoveAttempt(r.current.value, AttemptRunning, AttemptFenced); }
          results := results[d := r.(token := fence, generation := r.generation + 1, owner := None, current := None)];
        } else if r.state == ResultReady {
          results := results[d := r.(token := fence, owner := None)];
        }
      }
    }

    /** The lease goes on under a new fence, in the store and in the result row. */
    method Resume(l: LeaseId, now: int)
      requires l in store.claims && store.claims[l].lane in store.lanes && store.claims[l].dispatch in store.outbox
      modifies this, store
      ensures var c := old(store.Tables());
              && store.Tables() == Refence(c, l, leaseSeconds, now)
              && Rows() == RefenceResult(old(Rows()), c.claims[l].dispatch, c.lanes[c.claims[l].lane].fence + 1)
    {
      var d, fence := store.claims[l].dispatch, store.lanes[store.claims[l].lane].fence + 1;
      RefenceClaim(l, now);
      RefenceRow(d, fence);
    }

    /** The statements of the loop body. */
    method RecoverRows(l: LeaseId, now: int) returns (resumed: bool)
      requires Valid() && LeaseLive(store.Tables(), l)
      modifies this, store
      ensures RecoverLocalOne(old(store.Tables()), old(Rows()), l, kinds, leaseSeconds, now, heartbeatSla)
              == Ok((store.Tables(), Rows()))
    {
      RecoverLocalOneIs(store.Tables(), Rows(), l, kinds, leaseSeconds, now, heartbeatSla);
      resumed := false;
      var r := store.claims[l];
      if Recoverable(r, store.outbox[r.dispatch], ResultOf(Rows(), r.dispatch), kinds, r.dispatch, now, heartbeatSla) {
        var active := store.ActiveClaim(r.lane);
        if active == Some(l) {
          Resume(l, now);
          resumed := true;
        }
      }
    }

    /** The loop body of `_recover_local_claims`. */
    method RecoverClaim(l: LeaseId, now: int) returns (resumed: bool)
      requires Valid() && LeaseLive(store.Tables(), l)
      modifies this, store
      ensures Valid()
      ensures RecoverLocalOne(old(store.Tables()), old(Rows()), l, kinds, leaseSeconds, now, heartbeatSla)
              == Ok((store.Tables(), Rows()))
    {
      ghost var before, rows := store.Tables(), Rows();
      resumed := RecoverRows(l, now);
      RecoveredStaysRight(before, rows, l, kinds, leaseSeconds, now, heartbeatSla, store.Tables(), Rows());
    }

    method RecoverLocalClaims(now: int) returns (resumed: seq<LeaseId>, ghost rows: seq<LeaseId>)
      requires Valid()
      modifies this, store
      ensures Valid()
      ensures RecoverLocal(old(store.Tables()), old(Rows()), rows, kinds, leaseSeconds, now, heartbeatSla)
              == Ok((store.Tables(), Rows()))
      ensures CarriesOn(old(store.Tables()), old(Rows()), store.Tables(), Rows(), kinds, leaseSeconds, now, heartbeatSla)
    {
      ghost var before, filed := store.Tables(), Rows();
      resumed := [];
      var live := Select(LiveLeases(store.Tables()));
      rows := live;
      var i := 0;
      while i < |live|
        invariant i <= |live| && Valid() && Distinct(live[i..]) && AllLive(store.Tables(), live[i..])
        invariant RecoverLocalAll(store.Tables(), Rows(), live[i..], kinds, leaseSeconds, now, heartbeatSla)
                  == RecoverLocalAll(old(store.Tables()), old(Rows()), live, kinds, leaseSeconds, now, heartbeatSla)
      {
        var l := live[i];
        assert l == live[i..][0] && live[i..][1..] == live[i + 1..];
        ghost var c, e := store.Tables(), Rows();
        assert l in live[i..];
        var done := RecoverClaim(l, now);
        RecoverLocalTail(c, e, live[i..], kinds, leaseSeconds, now, heartbeatSla);
        if done { resumed := resumed + [l]; }
        i := i + 1;
      }
      RecoverLocalWrites(before, filed, live, kinds, leaseSeconds, now, heartbeatSla);
    }

    /** The worker's whole recovery, three transactions: its own leases go on, the others become stale, and what was
        unfinished under those loses its authority. */
    method Recover(now: int) returns (resumed: seq<LeaseId>, stale: seq<LeaseId>)
      requires Valid()
      modifies this, store
      ensures Valid()
      ensures forall l :: LeaseLive(store.Tables(), l) ==> !Expired(store.claims[l], now, heartbeatSla)
      ensures forall d :: d in results && results[d].lease in stale ==> Final(results[d].state)
    {
      ghost var rows;
      resumed, rows := RecoverLocalClaims(now);
      stale := RecoverStore(now);
      MarkLost(set l | l in stale);
    }

    method RecoverStore(now: int) returns (stale: seq<LeaseId>)
      requires Valid()
      modifies store
      ensures Valid()
      ensures forall l :: LeaseLive(store.Tables(), l) ==> !Expired(store.claims[l], now, heartbeatSla)
      ensures forall l :: l in stale ==> l in store.claims && store.claims[l].status == Stale
    {
      ghost var before := store.Tables();
      ghost var live, waiting;
      stale, live, waiting := store.Recover(now, heartbeatSla);
      RecoverSafe(before, now, heartbeatSla, live, waiting);
      NoneExpired(before, now, heartbeatSla, live, waiting);
      SupervisorKeepsExecution(before, store.Tables(), Rows());
    }

    /** What was unfinished under stale leases loses its authority. */
    method MarkLost(lost: set<LeaseId>)
      requires Valid() && forall l :: l in lost ==> l in store.claims && store.claims[l].status == Stale
      modifies this
      ensures Valid() && Rows() == MarkAuthorityLost(old(Rows()), lost)
      ensures Abandons(old(Rows()), Rows(), lost)
    {
      ghost var e := Rows();
      AbandonWrites(store.Tables(), e, lost);
      MarkAuthorityLostKeeps(store.Tables(), e, lost);
      attempts := map a | a in attempts ::
                    if attempts[a].state == AttemptRunning && CurrentOf(Rows(), a, attempts[a].dispatch, lost)
                    then attempts[a].(state := AttemptFenced) else attempts[a];
      results := map d | d in results ::
                   if Abandoned(results[d], lost)
                   then results[d].(state := AuthorityLost, outcome := Some(Stale), owner := None) else results[d];
      assert Rows() == MarkAuthorityLost(e, lost);
    }
  }
}
