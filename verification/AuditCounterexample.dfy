/** A run without the validation guard that breaks the audit: two delegations are READY on one lane, the first waits
    for its evaluator while the second is claimed, and then the evaluation of the first times out. */
module AuditCounterexample {
  import opened Wrappers
  import opened Tables
  import opened SupervisorSpec
  import opened SupervisorInvariants
  import opened ValidationGuard
  import opened SecondShift
  import opened SecondShiftRuns
  import opened AuditRuns

  function FirstClaim(): Request { Request(0, 1, 0, 7, 1, 0, 0, 3600, 10, 1, 1) }

  function SecondClaim(): Request { Request(0, 2, 0, 7, 2, 0, 0, 3600, 20, 2, 2) }

  /** The tables after two deliveries of READY work on one new lane. */
  function BothReady(): Core {
    var log := [LaneEvent(0, 0, LaneRegistered, 0),
                Event(1, 0, SuccessorBound, Some(1), None, None, 0, NoDoc), Event(1, 0, WorkReady, Some(1), None, None, 0, NoDoc),
                Event(2, 0, SuccessorBound, Some(2), None, None, 0, NoDoc), Event(2, 0, WorkReady, Some(2), None, None, 0, NoDoc)];
    Core(map[0 := LaneRow(0, 0, 7, 0, HasReady, Some(2))],
         map[1 := DelegationRow(0, 0, 7, Ready, true), 2 := DelegationRow(0, 0, 7, Ready, false)], map[], map[], log)
  }

  /** The run `ms` crosses nowhere and leads from the empty system to `w`, where only the store has rows. */
  ghost predicate LeadsTo(ms: seq<Move>, w: World) {
    NeverCrosses(Start(), ms) && w == After(Start(), ms) && w == Start().(core := w.core)
  }

  lemma {:induction false} RunOn(w: World, ms: seq<Move>, m: Move)
    requires NeverCrosses(w, ms) && !IsRecover(m.op)
    ensures NeverCrosses(w, ms + [m]) && After(w, ms + [m]) == Next(After(w, ms), m)
    decreases |ms|
  {
    if ms == [] { assert (ms + [m])[1..] == []; }
    else {
      assert (ms + [m])[1..] == ms[1..] + [m];
      RunOn(Next(w, ms[0]), ms[1..], m);
    }
  }

  lemma StoreMove(ms: seq<Move>, w: World, op: StoreOp, now: int, c: Core) returns (ms': seq<Move>, w': World)
    requires LeadsTo(ms, w) && !op.RecoverOp? && CoreStep(w.core, op, now) == Ok(c)
    ensures LeadsTo(ms', w') && w'.core == c
  {
    var m := Move(OfStore(op), now);
    RunOn(Start(), ms, m);
    ms', w' := ms + [m], w.(core := c);
    assert Next(w, m) == w';
  }

  lemma ClaimMove(ms: seq<Move>, w: World, q: Request, c: Core) returns (ms': seq<Move>, w': World)
    requires LeadsTo(ms, w) && ClaimReady(w.core, q, true, {}) == Ok(c)
    ensures LeadsTo(ms', w') && w'.core == c
  {
    var m := Move(OfClaim(ClaimReadyOp(q, true)), q.now);
    RunOn(Start(), ms, m);
    ms', w' := ms + [m], w.(core := c);
    assert q.(now := q.now) == q;
    assert Next(w, m) == w';
  }

  lemma DeliverBoth() returns (ms: seq<Move>, w: World)
    ensures LeadsTo(ms, w) && w.core == BothReady()
  {
    ms, w := [], Start();
    var c1 := RegisterLane(w.core, 0, 0, 0, 7, 0, []).value;
    ms, w := StoreMove(ms, w, RegisterLaneOp(0, 0, 0, 7, []), 0, c1);
    var c2 := BindReady(c1, 0, 1, 0, 7, true, 1).value;
    ms, w := StoreMove(ms, w, BindReadyOp(0, 1, 0, 7, true), 1, c2);
    var c3 := BindReady(c2, 0, 2, 0, 7, false, 2).value;
    ms, w := StoreMove(ms, w, BindReadyOp(0, 2, 0, 7, false), 2, c3);
  }

  lemma DispatchFirst(c: Core) returns (d: Core)
    requires c == Grant(BothReady(), FirstClaim())
    ensures MarkDispatched(c, 1, NamedRun(5), 11) == Ok(d) && AwaitEvaluation(d, 1, 1, 9, 9, 30, 12).Ok?
    ensures FirstWaits(AwaitEvaluation(d, 1, 1, 9, 9, 30, 12).value)
  { d := MarkDispatched(c, 1, NamedRun(5), 11).value; }

  /** The first candidate is with its evaluator, the lane is free, and the second delegation still READY. */
  predicate FirstWaits(e: Core) {
    && e.claims.Keys == {1} && e.claims[1].lane == 0 && e.claims[1].key == 1 && e.claims[1].status == Validating
    && !Live(e.claims[1]) && e.claims[1].reason == HandoffDoc(9, 9, NamedRun(5), 30, 42) && e.outbox.Keys == {1}
    && e.lanes == map[0 := LaneRow(0, 0, 7, 1, Reconcile, None)]
    && 2 in e.delegations && e.delegations[2] == DelegationRow(0, 0, 7, Ready, false)
  }

  lemma ClaimTheFirst() returns (ms: seq<Move>, w: World)
    ensures LeadsTo(ms, w) && w.core == Grant(BothReady(), FirstClaim())
  {
    ms, w := DeliverBoth();
    ms, w := ClaimMove(ms, w, FirstClaim(), Grant(w.core, FirstClaim()));
  }

  lemma HandOffFirst() returns (ms: seq<Move>, w: World)
    ensures LeadsTo(ms, w) && FirstWaits(w.core)
  {
    ms, w := ClaimTheFirst();
    var d := DispatchFirst(w.core);
    ms, w := StoreMove(ms, w, MarkDispatchedOp(1, NamedRun(5)), 11, d);
    ms, w := StoreMove(ms, w, AwaitEvaluationOp(1, 1, 9, 9, 30), 12, AwaitEvaluation(d, 1, 1, 9, 9, 30, 12).value);
  }

  lemma ClaimSecond(e: Core)
    requires FirstWaits(e)
    ensures ClaimReady(e, SecondClaim(), true, {}) == Ok(Grant(e, SecondClaim()))
    ensures CrossedBy(Grant(e, SecondClaim()), 1, 2, 100, 1000)
    ensures LiveLeases(Grant(e, SecondClaim())) == {2} && WaitingLeases(Grant(e, SecondClaim())) == {1}
  { }

  lemma Recovers(c: Core)
    requires CrossedBy(c, 1, 2, 100, 1000) && LiveLeases(c) == {2} && WaitingLeases(c) == {1}
    ensures Recover(c, 100, 1000, [2], [1]).Ok?
  {
    assert RecoverOne(c, 2, 100, 1000) == c;
    assert RecoverLive(c, [2], 100, 1000) == c;
  }

  lemma Breaks(w: World, m: Move)
    requires WorldOk(w) && Shown(w.core) && m == Move(OfStore(RecoverOp(1000, [2], [1])), 100)
    requires CrossedBy(w.core, 1, 2, 100, 1000) && LiveLeases(w.core) == {2} && WaitingLeases(w.core) == {1}
    ensures AuditClean(w.core) && Step(w, m.op, m.now).Ok? && !AuditClean(Next(w, m).core)
  {
    Recovers(w.core);
    ShownIsClean(w.core);
    StepAudit(w, m);
  }

  /** The audit of the unguarded store is no invariant: this run ends in a state that `audit_invariants` rejects. */
  lemma AuditCanBreak() returns (w: World, m: Move)
    ensures Reachable(w) && AuditClean(w.core) && Step(w, m.op, m.now).Ok?
    ensures !AuditClean(Next(w, m).core)
  {
    var ms, e := HandOffFirst();
    ClaimSecond(e.core);
    ms, w := ClaimMove(ms, e, SecondClaim(), Grant(e.core, SecondClaim()));
    m := Move(OfStore(RecoverOp(1000, [2], [1])), 100);
    StartOk();
    ShownAlong(Start(), ms);
    RunIsTrace(Start(), ms);
    Breaks(w, m);
  }
}
