/** The second fence: one running attempt per dispatch, results staged once, and a commit that survives a crash. */
module ExecutionSafety {
  import opened Wrappers
  import opened Tables
  import opened SupervisorSpec
  import opened SupervisorInvariants
  import opened SupervisorSafety
  import opened ExecutionSpec

  // ---- One state ----

  function AttemptsOf(e: Exec, d: DispatchId): set<AttemptId> {
    set a | a in e.attempts && e.attempts[a].dispatch == d
  }

  predicate AttemptIs(e: Exec, a: Option<AttemptId>, d: DispatchId, g: nat, s: AttemptState) {
    && a.Some? && a.value in e.attempts
    && e.attempts[a.value].dispatch == d && e.attempts[a.value].generation == g && e.attempts[a.value].state == s
  }

  /** What the state of a result row says about its attempt and its claim. */
  predicate StateOk(c: Core, e: Exec, d: DispatchId)
    requires d in e.results && e.results[d].lease in c.claims
  {
    var r := e.results[d];
    match r.state
    case InProgress =>
      r.payload == NoDoc &&
      if r.owner.None? then r.current.None? && r.retrySafe
      else AttemptIs(e, r.current, d, r.generation, AttemptRunning) && e.attempts[r.current.value].owner == r.owner.value
    case ResultReady =>
      && AttemptIs(e, r.current, d, r.generation, AttemptReady)
      && (r.outcome == Some(Completed) || r.outcome == Some(Blocked)) && r.payload.StagedDoc?
    case Succeeded => c.claims[r.lease].status == Completed && c.claims[r.lease].reason == r.payload
    case Failed => c.claims[r.lease].status == Blocked && c.claims[r.lease].reason == r.payload
    case AuthorityLost => r.payload != NoDoc ==> c.claims[r.lease].status == Stale
  }

  /** The result row belongs to its dispatch, and its fence is the fence of the lease. */
  predicate ResultOk(c: Core, e: Exec, d: DispatchId)
    requires d in e.results
  {
    var r := e.results[d];
    && d in c.outbox && r.input == InputOf(d, c.outbox[d]) && r.lease == c.outbox[d].lease
    && r.lease in c.claims && c.claims[r.lease].dispatch == d
    && r.token == c.claims[r.lease].token
    && r.generation >= 1
    && (r.current.Some? ==> r.current.value in e.attempts && e.attempts[r.current.value].dispatch == d)
    && StateOk(c, e, d)
    && r.count == |AttemptsOf(e, d)|
  }

  /** A running attempt is the current one; every other attempt has an earlier generation. */
  predicate AttemptOk(e: Exec, a: AttemptId)
    requires a in e.attempts
  {
    var x := e.attempts[a];
    && x.dispatch in e.results
    && var r := e.results[x.dispatch];
    && x.generation <= r.generation
    && (x.state == AttemptRunning ==> r.state == InProgress && r.current == Some(a))
    && (r.state == InProgress && r.current != Some(a) ==> x.generation < r.generation)
  }

  ghost predicate ResultsOk(c: Core, e: Exec) {
    forall d {:trigger ResultOk(c, e, d)} :: d in e.results ==> ResultOk(c, e, d)
  }

  ghost predicate AttemptsOk(e: Exec) { forall a {:trigger AttemptOk(e, a)} :: a in e.attempts ==> AttemptOk(e, a) }

  ghost predicate Executes(c: Core, e: Exec) { ResultsOk(c, e) && AttemptsOk(e) }

  // ---- Two states ----

  predicate ResultMoves(e: Exec, f: Exec, d: DispatchId)
    requires d in e.results
  {
    && d in f.results
    && var r := e.results[d];
       var q := f.results[d];
    && q.lease == r.lease && q.input == r.input && r.generation <= q.generation && r.count <= q.count
    && (Final(r.state) ==> q == r)
    && (q.state == InProgress ==> r.state == InProgress)
    && (r.state == ResultReady ==>
          q.current == r.current && q.payload == r.payload && q.generation == r.generation
          && (q.state == ResultReady ==> q.outcome == r.outcome))
    && (!r.retrySafe ==> !q.retrySafe && q.count == r.count)
    && (q.current.Some? && q.current.value in e.attempts ==>
          q.current == r.current && q.generation == r.generation && (q.owner.Some? ==> q.owner == r.owner))
  }

  predicate AttemptMoves(e: Exec, f: Exec, a: AttemptId)
    requires a in e.attempts
  {
    && a in f.attempts
    && f.attempts[a].dispatch == e.attempts[a].dispatch && f.attempts[a].generation == e.attempts[a].generation
    && f.attempts[a].owner == e.attempts[a].owner
  }

  /** A new attempt has a higher generation than every earlier attempt of its dispatch. */
  ghost predicate AttemptAppears(e: Exec, f: Exec, a: AttemptId)
    requires a in f.attempts
  {
    forall x :: x in e.attempts && e.attempts[x].dispatch == f.attempts[a].dispatch
      ==> e.attempts[x].generation < f.attempts[a].generation
  }

  ghost predicate ExecMoves(e: Exec, f: Exec) {
    && (forall d {:trigger ResultMoves(e, f, d)} :: d in e.results ==> ResultMoves(e, f, d))
    && (forall a {:trigger AttemptMoves(e, f, a)} :: a in e.attempts ==> AttemptMoves(e, f, a))
    && (forall a {:trigger AttemptAppears(e, f, a)} :: a in f.attempts && a !in e.attempts ==> AttemptAppears(e, f, a))
  }

  lemma ExecMovesReflexive(e: Exec)
    ensures ExecMoves(e, e)
  { }

  lemma ExecMovesTransitive(e: Exec, f: Exec, g: Exec)
    requires ExecMoves(e, f) && ExecMoves(f, g)
    ensures ExecMoves(e, g)
  {
    forall a | a in e.attempts ensures AttemptMoves(e, g, a) { assert AttemptMoves(e, f, a) && AttemptMoves(f, g, a); }
    forall d | d in e.results ensures ResultMoves(e, g, d) {
      assert ResultMoves(e, f, d) && ResultMoves(f, g, d);
      var q := g.results[d];
      if q.current.Some? && q.current.value in e.attempts { assert AttemptMoves(e, f, q.current.value); }
    }
    forall a | a in g.attempts && a !in e.attempts ensures AttemptAppears(e, g, a) {
      forall x | x in e.attempts && e.attempts[x].dispatch == g.attempts[a].dispatch
        ensures e.attempts[x].generation < g.attempts[a].generation
      {
        assert AttemptMoves(e, f, x);
        if a in f.attempts { assert AttemptMoves(f, g, a) && AttemptAppears(e, f, a); }
        else { assert AttemptAppears(f, g, a); }
      }
    }
  }

  // ---- Supervisor transactions leave the execution tables right ----

  lemma SupervisorKeepsExecution(a: Core, b: Core, e: Exec)
    requires Consistent(a) && Consistent(b) && Evolves(a, b) && TokensKept(a, b) && Executes(a, e)
    ensures Executes(b, e)
  {
    forall d | d in e.results ensures ResultOk(b, e, d) {
      assert ResultOk(a, e, d);
      var l := e.results[d].lease;
      assert ClaimOk(a, l) && ClaimEvolves(a, b, l) && SameToken(a, b, l) && DispatchEvolves(a, b, d);
    }
  }

  // ---- Acquisition ----

  lemma CountedOne(e: Exec, a: AttemptId, d: DispatchId, row: AttemptRow, results: map<DispatchId, ResultRow>)
    requires a !in e.attempts && row.dispatch == d
    ensures var f := Exec(results, e.attempts[a := row]);
            |AttemptsOf(f, d)| == |AttemptsOf(e, d)| + 1 && forall x :: x != d ==> AttemptsOf(f, x) == AttemptsOf(e, x)
  {
    var f := Exec(results, e.attempts[a := row]);
    assert AttemptsOf(f, d) == AttemptsOf(e, d) + {a};
    forall x | x != d ensures AttemptsOf(f, x) == AttemptsOf(e, x) { }
  }

  /** The acquisition starts a new attempt. */
  ghost predicate Acquires(c: Core, e: Exec, d: DispatchId, token: int, w: WorkerId, retrySafe: bool, a: AttemptId, now: int) {
    && Consistent(c) && Executes(c, e) && Acquire(c, e, d, token, w, retrySafe, a, now).Ok?
    && Acquire(c, e, d, token, w, retrySafe, a, now).value.0 != e
  }

  lemma AcquireAttempts(c: Core, e: Exec, d: DispatchId, token: int, w: WorkerId, retrySafe: bool, a: AttemptId, now: int)
    requires Acquires(c, e, d, token, w, retrySafe, a, now)
    ensures var f := Acquire(c, e, d, token, w, retrySafe, a, now).value.0;
            a in f.attempts && AttemptOk(f, a) && forall x :: x in e.attempts ==> AttemptOk(f, x) && AttemptMoves(e, f, x)
  {
    var f := Acquire(c, e, d, token, w, retrySafe, a, now).value.0;
    assert d in e.results ==> ResultOk(c, e, d);
    forall x | x in e.attempts ensures AttemptOk(f, x) && AttemptMoves(e, f, x) { assert AttemptOk(e, x); }
  }

  lemma AcquireResult(c: Core, e: Exec, d: DispatchId, token: int, w: WorkerId, retrySafe: bool, a: AttemptId, now: int)
    requires Acquires(c, e, d, token, w, retrySafe, a, now)
    ensures var f := Acquire(c, e, d, token, w, retrySafe, a, now).value.0;
            d in f.results && ResultOk(c, f, d) && (d in e.results ==> ResultMoves(e, f, d))
            && forall x :: x != d ==> AttemptsOf(f, x) == AttemptsOf(e, x)
  {
    var f := Acquire(c, e, d, token, w, retrySafe, a, now).value.0;
    assert OutboxRowOk(c, d);
    assert d in e.results ==> ResultOk(c, e, d);
    CountedOne(e, a, d, f.attempts[a], f.results);
    if d !in e.results {
      forall x | x in e.attempts ensures e.attempts[x].dispatch != d { assert AttemptOk(e, x); }
      assert AttemptsOf(e, d) == {};
    }
  }

  lemma AcquireOthers(
    c: Core, e: Exec, d: DispatchId, token: int, w: WorkerId, retrySafe: bool, a: AttemptId, now: int, x: DispatchId)
    requires Acquires(c, e, d, token, w, retrySafe, a, now) && x in e.results && x != d
    requires AttemptsOf(Acquire(c, e, d, token, w, retrySafe, a, now).value.0, x) == AttemptsOf(e, x)
    ensures var f := Acquire(c, e, d, token, w, retrySafe, a, now).value.0;
            x in f.results && ResultOk(c, f, x) && ResultMoves(e, f, x)
  { assert ResultOk(c, e, x); }

  lemma AcquireKeeps(c: Core, e: Exec, d: DispatchId, token: int, w: WorkerId, retrySafe: bool, a: AttemptId, now: int)
    requires Consistent(c) && Executes(c, e) && Acquire(c, e, d, token, w, retrySafe, a, now).Ok?
    ensures var f := Acquire(c, e, d, token, w, retrySafe, a, now).value.0;
            Executes(c, f) && ExecMoves(e, f)
  {
    var f := Acquire(c, e, d, token, w, retrySafe, a, now).value.0;
    if f == e { ExecMovesReflexive(e); }
    else {
      AcquireAttempts(c, e, d, token, w, retrySafe, a, now);
      AcquireResult(c, e, d, token, w, retrySafe, a, now);
      forall x | x in f.results ensures ResultOk(c, f, x) && (x in e.results ==> ResultMoves(e, f, x)) {
        if x != d { AcquireOthers(c, e, d, token, w, retrySafe, a, now, x); }
      }
      assert AttemptAppears(e, f, a) by {
        forall x | x in e.attempts && e.attempts[x].dispatch == d ensures e.attempts[x].generation < f.attempts[a].generation {
          assert AttemptOk(e, x);
        }
      }
    }
  }

  // ---- Changes of one result row and its current attempt ----

  /** One result row is rewritten, and at most the state of its current attempt with it. */
  ghost predicate Rewrites(e: Exec, f: Exec, d: DispatchId) {
    && d in e.results && d in f.results && f.results == e.results[d := f.results[d]]
    && f.attempts.Keys == e.attempts.Keys
    && (forall a {:trigger f.attempts[a]} :: a in e.attempts ==>
          if e.results[d].current == Some(a) && e.attempts[a].dispatch == d
          then f.attempts[a] == e.attempts[a].(state := f.attempts[a].state) else f.attempts[a] == e.attempts[a])
  }

  lemma RewriteKeeps(c: Core, e: Exec, f: Exec, d: DispatchId)
    requires Executes(c, e) && Rewrites(e, f, d) && ResultMoves(e, f, d)
    requires ResultOk(c, f, d)
    requires f.results[d].state == InProgress ==> f.results[d].generation > e.results[d].generation && f.results[d].current.None?
    requires e.results[d].current.Some? && e.results[d].current.value in e.attempts ==>
               f.attempts[e.results[d].current.value].state != AttemptRunning
    ensures Executes(c, f) && ExecMoves(e, f)
  {
    assert ResultOk(c, e, d);
    forall x | x in f.results ensures ResultOk(c, f, x) && ResultMoves(e, f, x) {
      if x != d {
        assert ResultOk(c, e, x);
        OtherAttempt(c, e, f, d, x);
      }
    }
    forall a | a in f.attempts ensures AttemptOk(f, a) && AttemptMoves(e, f, a) { assert AttemptOk(e, a); }
  }

  lemma OtherAttempt(c: Core, e: Exec, f: Exec, d: DispatchId, x: DispatchId)
    requires Rewrites(e, f, d) && x in e.results && x != d && ResultOk(c, e, x)
    ensures f.results[x] == e.results[x] && ResultOk(c, f, x)
  {
    assert AttemptsOf(f, x) == AttemptsOf(e, x);
    var q := e.results[x].current;
    if q.Some? && q.value in e.attempts { assert f.attempts[q.value].dispatch == e.attempts[q.value].dispatch; }
  }

  lemma StageKeeps(c: Core, e: Exec, x: Context, outcome: Status, result: nat, now: int)
    requires Executes(c, e) && Stage(c, e, x, outcome, result, now).Ok?
    ensures var f := Stage(c, e, x, outcome, result, now).value; Executes(c, f) && ExecMoves(e, f)
  {
    var f := Stage(c, e, x, outcome, result, now).value;
    assert ResultOk(c, e, x.dispatch) && AttemptsOf(f, x.dispatch) == AttemptsOf(e, x.dispatch);
    RewriteKeeps(c, e, f, x.dispatch);
  }

  lemma RecordAuthorityLostKeeps(c: Core, e: Exec, x: Context)
    requires Executes(c, e)
    ensures var f := RecordAuthorityLost(e, x); Executes(c, f) && ExecMoves(e, f)
  {
    var f := RecordAuthorityLost(e, x);
    if f == e { ExecMovesReflexive(e); }
    else {
      assert ResultOk(c, e, x.dispatch) && AttemptsOf(f, x.dispatch) == AttemptsOf(e, x.dispatch);
      RewriteKeeps(c, e, f, x.dispatch);
    }
  }

  // ---- The commit ----

  /** A ticket that was read from a staged row still describes that row. */
  predicate TicketOk(e: Exec, t: Ticket) {
    && t.dispatch in e.results
    && var r := e.results[t.dispatch];
    && r.state != InProgress && r.lease == t.lease && r.payload == t.payload
    && r.current == t.attempt && r.generation == t.generation && t.attempt.Some? && t.payload.StagedDoc?
    && (t.outcome == Completed || t.outcome == Blocked)
    && (r.state == ResultReady ==> r.outcome == Some(t.outcome))
  }

  /** The supervisor transaction of the commit went through for this ticket. */
  predicate SealOk(c: Core, t: Ticket) {
    t.lease in c.claims && c.claims[t.lease].status == t.outcome && c.claims[t.lease].reason == t.payload
  }

  lemma ReadStagedOk(c: Core, e: Exec, d: DispatchId)
    requires Executes(c, e) && ReadStaged(e, d).Ok?
    ensures TicketOk(e, ReadStaged(e, d).value)
  { assert ResultOk(c, e, d); }

  lemma TicketStays(e: Exec, f: Exec, t: Ticket)
    requires ExecMoves(e, f) && TicketOk(e, t)
    ensures TicketOk(f, t)
  { assert ResultMoves(e, f, t.dispatch); }

  lemma SealStays(a: Core, b: Core, t: Ticket)
    requires Consistent(a) && Evolves(a, b) && SealOk(a, t) && (t.outcome == Completed || t.outcome == Blocked)
    ensures SealOk(b, t)
  { assert ClaimOk(a, t.lease) && ClaimEvolves(a, b, t.lease); }

  lemma SealGives(c: Core, t: Ticket, now: int)
    requires Seal(c, t, now).Ok?
    ensures SealOk(Seal(c, t, now).value, t)
  { }

  /** With the supervisor part done, the final write always succeeds and records what the claim says. */
  lemma FinishKeeps(c: Core, e: Exec, t: Ticket)
    requires Executes(c, e) && TicketOk(e, t) && SealOk(c, t)
    ensures Finish(e, t).Ok?
    ensures var f := Finish(e, t).value; Executes(c, f) && ExecMoves(e, f) && Final(f.results[t.dispatch].state)
  {
    var f := Finish(e, t).value;
    assert ResultOk(c, e, t.dispatch) && AttemptsOf(f, t.dispatch) == AttemptsOf(e, t.dispatch);
    if f == e { ExecMovesReflexive(e); }
    else { RewriteKeeps(c, e, f, t.dispatch); }
  }

  /** Once the supervisor part is done the result waits for the final write or has got it: a sealed result never ends
      without its authority. */
  lemma SealedResult(c: Core, e: Exec, t: Ticket)
    requires Executes(c, e) && TicketOk(e, t) && SealOk(c, t)
    ensures e.results[t.dispatch].state == ResultReady || e.results[t.dispatch].state == FinalState(t)
  { assert ResultOk(c, e, t.dispatch); }

  // ---- Lost authority of stale leases ----

  lemma MarkAuthorityLostKeeps(c: Core, e: Exec, stale: set<LeaseId>)
    requires Executes(c, e) && forall l :: l in stale ==> l in c.claims && c.claims[l].status == Stale
    ensures var f := MarkAuthorityLost(e, stale); Executes(c, f) && ExecMoves(e, f)
  {
    var f := MarkAuthorityLost(e, stale);
    forall d | d in f.results ensures ResultOk(c, f, d) && ResultMoves(e, f, d) {
      assert ResultOk(c, e, d) && AttemptsOf(f, d) == AttemptsOf(e, d);
    }
    forall a | a in f.attempts ensures AttemptOk(f, a) && AttemptMoves(e, f, a) { assert AttemptOk(e, a); }
  }

  // ---- Recovery under a new fence ----

  lemma RefenceForward(c: Core, l: LeaseId, ttl: int, now: int)
    requires Consistent(c) && LeaseLive(c, l) && c.claims[l].lane in c.lanes
    ensures Forward(c, Refence(c, l, ttl, now))
  {
    assert ClaimOk(c, l);
    TouchKeeps(c, Refence(c, l, ttl, now), l);
    TouchEvolves(c, Refence(c, l, ttl, now), l);
  }

  /** The result rows of all other leases still fit after one lease got a new fence. */
  lemma RefenceOthers(c: Core, e: Exec, l: LeaseId, ttl: int, now: int, d: DispatchId)
    requires Consistent(c) && LeaseLive(c, l) && c.claims[l].lane in c.lanes && d in e.results && ResultOk(c, e, d)
    requires d != c.claims[l].dispatch
    ensures ResultOk(Refence(c, l, ttl, now), e, d)
  { assert ClaimOk(c, l); }

  lemma RefencedResult(c: Core, e: Exec, l: LeaseId, ttl: int, now: int)
    requires Consistent(c) && LeaseLive(c, l) && c.claims[l].lane in c.lanes && Executes(c, e)
    requires c.claims[l].dispatch in e.results && !Final(e.results[c.claims[l].dispatch].state)
    requires e.results[c.claims[l].dispatch].state == InProgress ==> e.results[c.claims[l].dispatch].retrySafe
    ensures var b := Refence(c, l, ttl, now);
            var f := RefenceResult(e, c.claims[l].dispatch, c.lanes[c.claims[l].lane].fence + 1);
            ResultOk(b, f, c.claims[l].dispatch) && ResultMoves(e, f, c.claims[l].dispatch)
  {
    var d := c.claims[l].dispatch;
    var f := RefenceResult(e, d, c.lanes[c.claims[l].lane].fence + 1);
    assert ClaimOk(c, l) && ResultOk(c, e, d) && AttemptsOf(f, d) == AttemptsOf(e, d);
  }

  /** A lease with a result row goes on. */
  lemma RefenceWithResult(c: Core, e: Exec, l: LeaseId, ttl: int, now: int)
    requires Consistent(c) && LeaseLive(c, l) && c.claims[l].lane in c.lanes && Executes(c, e)
    requires c.claims[l].dispatch in e.results && !Final(e.results[c.claims[l].dispatch].state)
    requires e.results[c.claims[l].dispatch].state == InProgress ==> e.results[c.claims[l].dispatch].retrySafe
    ensures var b := Refence(c, l, ttl, now);
            var f := RefenceResult(e, c.claims[l].dispatch, c.lanes[c.claims[l].lane].fence + 1);
            Executes(b, f) && ExecMoves(e, f)
  {
    var b := Refence(c, l, ttl, now);
    var d := c.claims[l].dispatch;
    var f := RefenceResult(e, d, c.lanes[c.claims[l].lane].fence + 1);
    assert ResultOk(c, e, d);
    RefencedResult(c, e, l, ttl, now);
    forall x | x in f.results ensures ResultOk(b, f, x) && ResultMoves(e, f, x) {
      if x != d {
        assert ResultOk(c, e, x);
        RefenceOthers(c, e, l, ttl, now, x);
        OtherAttempt(b, e, f, d, x);
      }
    }
    forall a | a in f.attempts ensures AttemptOk(f, a) && AttemptMoves(e, f, a) { assert AttemptOk(e, a); }
  }

  lemma RefenceWithoutResult(c: Core, e: Exec, l: LeaseId, ttl: int, now: int)
    requires Consistent(c) && LeaseLive(c, l) && c.claims[l].lane in c.lanes && Executes(c, e)
    requires c.claims[l].dispatch !in e.results
    ensures Executes(Refence(c, l, ttl, now), e)
  {
    forall x | x in e.results ensures ResultOk(Refence(c, l, ttl, now), e, x) {
      assert ResultOk(c, e, x);
      RefenceOthers(c, e, l, ttl, now, x);
    }
  }

  lemma RefenceKeeps(c: Core, e: Exec, l: LeaseId, ttl: int, now: int)
    requires Consistent(c) && LeaseLive(c, l) && c.claims[l].lane in c.lanes && Executes(c, e)
    requires c.claims[l].dispatch in e.results ==>
               !Final(e.results[c.claims[l].dispatch].state)
               && (e.results[c.claims[l].dispatch].state == InProgress ==> e.results[c.claims[l].dispatch].retrySafe)
    ensures var b := Refence(c, l, ttl, now);
            var f := RefenceResult(e, c.claims[l].dispatch, c.lanes[c.claims[l].lane].fence + 1);
            Executes(b, f) && ExecMoves(e, f)
  {
    if c.claims[l].dispatch in e.results { RefenceWithResult(c, e, l, ttl, now); }
    else {
      ExecMovesReflexive(e);
      RefenceWithoutResult(c, e, l, ttl, now);
    }
  }

  /** The recovery identity check never trips. */
  lemma IdentityAlwaysMatches(c: Core, e: Exec, l: LeaseId)
    requires Consistent(c) && Executes(c, e) && LeaseLive(c, l)
    ensures c.claims[l].dispatch in c.outbox
    ensures IdentityMatches(l, c.claims[l], c.outbox[c.claims[l].dispatch], ResultOf(e, c.claims[l].dispatch))
  {
    var d := c.claims[l].dispatch;
    assert ClaimOk(c, l);
    assert d in e.results ==> ResultOk(c, e, d);
  }
}
