/** What a worker can meet while its executor runs: whatever the other actors did meanwhile, the tables are right. */
module WorkerRuns {
  import opened Wrappers
  import opened Tables
  import opened SupervisorSpec
  import opened SupervisorInvariants
  import opened SupervisorStore
  import opened CoordinationSpec
  import opened NightSpec
  import opened NightSafety
  import opened ExecutionSpec
  import opened ExecutionWorker
  import opened SecondShift
  import opened SecondShiftRuns

  lemma NightClaimKeepsKeys(
    c: Core, p: Coord, n: Night, h: Handoff, k: Contract, shiftOpen: bool, nightKey: nat, limit: int, now: int, ttl: int,
    lease: LeaseId, dispatch: DispatchId)
    requires KeysDiffer(c) && n.auths == {}
    requires NightClaim(c, p, n, h, k, shiftOpen, nightKey, limit, now, ttl, lease, dispatch).Ok?
    ensures KeysDiffer(NightClaim(c, p, n, h, k, shiftOpen, nightKey, limit, now, ttl, lease, dispatch).value.0)
  {
    if !KeyUsed(c, h.key) {
      NightClaimOutcome(c, p, n, h, k, shiftOpen, nightKey, limit, now, ttl, lease, dispatch);
      GrantedKeysDiffer(c, RequestOf(h, now, ttl, lease, dispatch));
    }
  }

  lemma ClaimKeepsKeys(w: World, op: ClaimOp, now: int)
    requires WorldOk(w) && KeysDiffer(w.core) && ClaimStep(w, op, now).Ok?
    ensures KeysDiffer(ClaimStep(w, op, now).value.core)
  {
    match op {
      case ClaimReadyOp(q, shiftOpen) =>
        if !KeyUsed(w.core, q.key) { GrantedKeysDiffer(w.core, q.(now := now)); }
      case CoordClaimOp(h, k, shiftOpen, ttl, l, d) =>
        if !KeyUsed(w.core, h.key) { GrantedKeysDiffer(w.core, RequestOf(h, now, ttl, l, d)); }
      case NightClaimOp(h, k, shiftOpen, nightKey, limit, ttl, l, d) =>
        NightClaimKeepsKeys(w.core, w.coord, w.night, h, k, shiftOpen, nightKey, limit, now, ttl, l, d);
    }
  }

  lemma NextKeepsKeys(w: World, m: Move)
    requires WorldOk(w) && KeysDiffer(w.core)
    ensures KeysDiffer(Next(w, m).core)
  {
    if Step(w, m.op, m.now).Ok? {
      if m.op.OfClaim? { ClaimKeepsKeys(w, m.op.claim, m.now); }
      else {
        NextKeeps(w, m);
        OthersGrantNothing(w, m.op, m.now);
        KeysStayDifferent(w.core, Next(w, m).core);
      }
    }
  }

  lemma TraceKeepsKeys(ws: seq<World>, n: nat)
    requires Trace(ws) && n < |ws| && WorldOk(ws[0]) && KeysDiffer(ws[0].core)
    ensures KeysDiffer(ws[n].core)
  {
    for i := 0 to n
      invariant KeysDiffer(ws[i].core)
    {
      TraceKeeps(ws, i);
      assert StepAt(ws, i);
      var m: Move :| ws[i + 1] == Next(ws[i], m);
      NextKeepsKeys(ws[i], m);
    }
  }

  lemma LaterKeys(w: World, v: World)
    requires WorldOk(w) && KeysDiffer(w.core) && Later(w, v)
    ensures KeysDiffer(v.core)
  {
    var ws :| Trace(ws) && ws[0] == w && ws[|ws| - 1] == v;
    TraceKeepsKeys(ws, |ws| - 1);
  }

  lemma ReachableKeys(w: World)
    requires Reachable(w)
    ensures KeysDiffer(w.core)
  {
    StartOk();
    LaterKeys(Start(), w);
  }

  /** An idempotency key is used by one claim for ever: of two states of a run, a claim of the later one with the key of a
      claim of the earlier one is the same claim. */
  lemma OneClaimPerKey(w: World, v: World, l: LeaseId, m: LeaseId)
    requires Reachable(w) && Later(w, v) && l in w.core.claims && m in v.core.claims
    requires v.core.claims[m].key == w.core.claims[l].key
    ensures l == m
  {
    LaterMoves(w, v);
    ReachableKeys(w);
    LaterKeys(w, v);
    assert ClaimEvolves(w.core, v.core, l);
  }

  /** Whatever run of all actors goes on while an executor is at work, it leaves right tables behind. */
  lemma RunsKeepRight(w: World, ms: seq<Move>)
    requires Reachable(w)
    ensures Right(After(w, ms).core, After(w, ms).exec)
  {
    ReachableOk(w);
    ReachableKeys(w);
    RunIsTrace(w, ms);
    RunKeeps(w, After(w, ms));
    LaterKeys(w, After(w, ms));
  }
}
