/** The worker's own recovery: expired local leases go on under a new fence instead of becoming stale. */
module LeaseRecovery {
  import opened Wrappers
  import opened Tables
  import opened SupervisorSpec
  import opened SupervisorInvariants
  import opened SupervisorSafety
  import opened EvaluationSafety
  import opened FailureSafety
  import opened ValidationGuard
  import opened StoreSteps
  import opened ExecutionSpec
  import opened ExecutionSafety

  lemma RefenceTouches(c: Core, l: LeaseId, ttl: int, now: int)
    requires Consistent(c) && LeaseLive(c, l) && c.claims[l].lane in c.lanes
    ensures var b := Refence(c, l, ttl, now);
            Touches(c, b, l) && LaneFollows(c, b, l) && Open(c.claims[l]) && b.claims.Keys == c.claims.Keys && Hushed(c, b)
  { assert ClaimOk(c, l); }

  lemma RefenceKept(c: Core, l: LeaseId, ttl: int, now: int)
    requires Consistent(c) && LeaseLive(c, l) && c.claims[l].lane in c.lanes
    ensures Kept(c, Refence(c, l, ttl, now)) && Refence(c, l, ttl, now).claims.Keys == c.claims.Keys
    ensures Shown(c) ==> Shown(Refence(c, l, ttl, now))
  {
    var b := Refence(c, l, ttl, now);
    RefenceTouches(c, l, ttl, now);
    RefenceForward(c, l, ttl, now);
    if Shown(c) { TouchShown(c, b, l); }
    if Guarded(c) { TouchGuarded(c, b, l); }
    if Evaluated(c) { HushedKeeps(c, b); }
    if Accounted(c) { RefenceFailureFree(c, l, ttl, now); FailureFreeKeeps(c, b); }
  }

  lemma RefenceFailureFree(c: Core, l: LeaseId, ttl: int, now: int)
    requires Consistent(c) && LeaseLive(c, l) && c.claims[l].lane in c.lanes
    ensures FailureFree(c, Refence(c, l, ttl, now))
  {
    var b := Refence(c, l, ttl, now);
    forall d | d in b.outbox ensures SameAccount(c, b, d) {
      if d != c.claims[l].dispatch { assert b.outbox[d] == c.outbox[d]; }
    }
  }

  /** Both fences in one step: the tables stay right and only move forward. */
  ghost predicate Recovers(c: Core, e: Exec, b: Core, f: Exec) {
    Kept(c, b) && (Shown(c) ==> Shown(b)) && b.claims.Keys == c.claims.Keys && Executes(b, f) && ExecMoves(e, f)
  }

  lemma RecoversTwice(c: Core, e: Exec, c1: Core, e1: Exec, c2: Core, e2: Exec)
    requires Consistent(c) && Recovers(c, e, c1, e1) && Recovers(c1, e1, c2, e2)
    ensures Recovers(c, e, c2, e2)
  {
    KeptTwice(c, c1, c2);
    ExecMovesTransitive(e, e1, e2);
  }

  lemma RecoversSame(c: Core, e: Exec)
    requires Consistent(c) && Executes(c, e)
    ensures Recovers(c, e, c, e)
  {
    SoundSame(c);
    ExecMovesReflexive(e);
  }

  lemma RefenceRecovers(c: Core, e: Exec, l: LeaseId, ttl: int, now: int)
    requires Consistent(c) && LeaseLive(c, l) && c.claims[l].lane in c.lanes && Executes(c, e)
    requires c.claims[l].dispatch in e.results ==>
               !Final(e.results[c.claims[l].dispatch].state)
               && (e.results[c.claims[l].dispatch].state == InProgress ==> e.results[c.claims[l].dispatch].retrySafe)
    ensures Recovers(c, e, Refence(c, l, ttl, now), RefenceResult(e, c.claims[l].dispatch, c.lanes[c.claims[l].lane].fence + 1))
  {
    RefenceKept(c, l, ttl, now);
    RefenceKeeps(c, e, l, ttl, now);
  }

  lemma RecoverLocalOneKeeps(c: Core, e: Exec, l: LeaseId, kinds: set<nat>, ttl: int, now: int, sla: int)
    requires Consistent(c) && Executes(c, e) && (l in c.claims ==> LeaseLive(c, l))
    ensures RecoverLocalOne(c, e, l, kinds, ttl, now, sla).Ok?
    ensures var r := RecoverLocalOne(c, e, l, kinds, ttl, now, sla).value; Recovers(c, e, r.0, r.1)
  {
    if l !in c.claims {
      assert RecoverLocalOne(c, e, l, kinds, ttl, now, sla) == Ok((c, e));
      RecoversSame(c, e);
    } else {
      assert ClaimOk(c, l);
      IdentityAlwaysMatches(c, e, l);
      var r := c.claims[l];
      if Recoverable(r, c.outbox[r.dispatch], ResultOf(e, r.dispatch), kinds, r.dispatch, now, sla) && Active(c, l, r.lane) {
        assert RecoverLocalOne(c, e, l, kinds, ttl, now, sla)
            == Ok((Refence(c, l, ttl, now), RefenceResult(e, r.dispatch, c.lanes[r.lane].fence + 1)));
        RefenceRecovers(c, e, l, ttl, now);
      } else {
        assert RecoverLocalOne(c, e, l, kinds, ttl, now, sla) == Ok((c, e));
        RecoversSame(c, e);
      }
    }
  }

  /** What becomes of one live lease: it goes on under a new fence exactly if it is recoverable and the active one. */
  lemma RecoverLocalOneIs(c: Core, e: Exec, l: LeaseId, kinds: set<nat>, ttl: int, now: int, sla: int)
    requires Consistent(c) && Executes(c, e) && LeaseLive(c, l)
    ensures c.claims[l].lane in c.lanes && c.claims[l].dispatch in c.outbox
    ensures var r := c.claims[l];
            var o := c.outbox[r.dispatch];
            RecoverLocalOne(c, e, l, kinds, ttl, now, sla)
            == Ok(if Recoverable(r, o, ResultOf(e, r.dispatch), kinds, r.dispatch, now, sla) && Active(c, l, r.lane)
                  then (Refence(c, l, ttl, now), RefenceResult(e, r.dispatch, c.lanes[r.lane].fence + 1)) else (c, e))
    ensures var r := RecoverLocalOne(c, e, l, kinds, ttl, now, sla).value; Recovers(c, e, r.0, r.1)
  {
    assert ClaimOk(c, l);
    IdentityAlwaysMatches(c, e, l);
    RecoverLocalOneKeeps(c, e, l, kinds, ttl, now, sla);
  }

  lemma RecoverLocalTail(c: Core, e: Exec, rows: seq<LeaseId>, kinds: set<nat>, ttl: int, now: int, sla: int)
    requires rows != [] && Distinct(rows) && AllLive(c, rows)
    requires RecoverLocalOne(c, e, rows[0], kinds, ttl, now, sla).Ok?
    ensures Distinct(rows[1..]) && AllLive(RecoverLocalOne(c, e, rows[0], kinds, ttl, now, sla).value.0, rows[1..])
  { TailRows(c, RecoverLocalOne(c, e, rows[0], kinds, ttl, now, sla).value.0, rows); }

  lemma {:induction false} RecoverLocalAllKeeps(
    c: Core, e: Exec, rows: seq<LeaseId>, kinds: set<nat>, ttl: int, now: int, sla: int)
    requires Consistent(c) && Executes(c, e) && Distinct(rows) && AllLive(c, rows)
    ensures RecoverLocalAll(c, e, rows, kinds, ttl, now, sla).Ok?
    ensures var r := RecoverLocalAll(c, e, rows, kinds, ttl, now, sla).value; Recovers(c, e, r.0, r.1)
    decreases |rows|
  {
    if rows == [] { RecoversSame(c, e); }
    else {
      assert rows[0] in rows;
      RecoverLocalOneKeeps(c, e, rows[0], kinds, ttl, now, sla);
      var one := RecoverLocalOne(c, e, rows[0], kinds, ttl, now, sla).value;
      RecoverLocalTail(c, e, rows, kinds, ttl, now, sla);
      RecoverLocalAllKeeps(one.0, one.1, rows[1..], kinds, ttl, now, sla);
      var r := RecoverLocalAll(c, e, rows, kinds, ttl, now, sla).value;
      RecoversTwice(c, e, one.0, one.1, r.0, r.1);
    }
  }

  /** Whatever the worker finds, its recovery succeeds: the identity check never trips. */
  lemma RecoverLocalKeeps(c: Core, e: Exec, rows: seq<LeaseId>, kinds: set<nat>, ttl: int, now: int, sla: int)
    requires Consistent(c) && Executes(c, e) && Lists(rows, LiveLeases(c))
    ensures RecoverLocal(c, e, rows, kinds, ttl, now, sla).Ok?
    ensures var r := RecoverLocal(c, e, rows, kinds, ttl, now, sla).value; Recovers(c, e, r.0, r.1)
  { RecoverLocalAllKeeps(c, e, rows, kinds, ttl, now, sla); }

  // ---- What the second fence promises over time ----

  predicate CanRenew(e: Exec, x: Context) { Owns(e, x) && !Final(e.results[x.dispatch].state) }

  predicate CanStage(e: Exec, x: Context) { Owns(e, x) && e.results[x.dispatch].state == InProgress }

  /** At most one attempt of a dispatch is running, and it is the one that its result row names. */
  lemma OneRunningAttempt(c: Core, e: Exec, a: AttemptId, b: AttemptId)
    requires Executes(c, e) && a in e.attempts && b in e.attempts
    requires e.attempts[a].dispatch == e.attempts[b].dispatch
    requires e.attempts[a].state == AttemptRunning && e.attempts[b].state == AttemptRunning
    ensures a == b && e.attempts[a].dispatch in e.results && e.results[e.attempts[a].dispatch].current == Some(a)
  { assert AttemptOk(e, a) && AttemptOk(e, b); }

  /** A generation, owner and attempt that was superseded can never renew or stage again. */
  lemma SupersededForEver(e: Exec, f: Exec, x: Context)
    requires ExecMoves(e, f) && x.dispatch in e.results && x.attempt in e.attempts
    ensures CanRenew(f, x) ==> CanRenew(e, x)
    ensures CanStage(f, x) ==> CanStage(e, x)
  { assert ResultMoves(e, f, x.dispatch); }

  /** A staged result is never rewritten, a final state never left, and a dispatch that needs reconciliation gets no
      further attempt. */
  lemma ResultsSettle(c: Core, e: Exec, d: Core, f: Exec, k: DispatchId)
    requires Executes(c, e) && Executes(d, f) && ExecMoves(e, f) && k in e.results
    ensures k in f.results
    ensures e.results[k].state != InProgress ==> f.results[k].payload == e.results[k].payload
    ensures Final(e.results[k].state) ==> f.results[k] == e.results[k]
    ensures !e.results[k].retrySafe ==> AttemptsOf(f, k) == AttemptsOf(e, k)
  {
    assert ResultMoves(e, f, k) && ResultOk(c, e, k) && ResultOk(d, f, k);
    if !e.results[k].retrySafe {
      forall a | a in AttemptsOf(e, k) ensures a in AttemptsOf(f, k) { assert AttemptMoves(e, f, a); }
      SameSize(AttemptsOf(e, k), AttemptsOf(f, k));
    }
  }

  lemma SameSize(x: set<AttemptId>, y: set<AttemptId>)
    requires x <= y && |x| == |y|
    ensures x == y
  {
    assert |y - x| == 0 by { assert y == x + (y - x); }
  }

  /** After a crash between the two transactions of a commit, running the commit again finishes it: the supervisor
      transaction is a replay that changes nothing, and the result row gets its final state. */
  lemma CommitAgain(c: Core, e: Exec, d: DispatchId, now: int)
    requires Consistent(c) && Executes(c, e) && d in e.results && e.results[d].state == ResultReady
    requires e.results[d].lease in c.claims && Some(c.claims[e.results[d].lease].status) == e.results[d].outcome
    requires c.claims[e.results[d].lease].reason == e.results[d].payload
    ensures ReadStaged(e, d).Ok?
    ensures Seal(c, ReadStaged(e, d).value, now) == Ok(c)
    ensures Finish(e, ReadStaged(e, d).value).Ok?
    ensures Finish(e, ReadStaged(e, d).value).value.results[d].state
            == (if e.results[d].outcome == Some(Completed) then Succeeded else Failed)
  {
    var l := e.results[d].lease;
    assert ResultOk(c, e, d) && ClaimOk(c, l);
  }
}
