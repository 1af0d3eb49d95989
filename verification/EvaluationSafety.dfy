/** What the append-only log proves: independent evaluation, and the accounting of dispatch failures. */
module EvaluationSafety {
  import opened Wrappers
  import opened Tables
  import opened SupervisorSpec
  import opened SupervisorInvariants
  import opened SupervisorSafety

  // ---- Independent evaluation ----

  /** The lane was given to a lease, or its control head moved. */
  predicate Takes(e: Event, lane: LaneId) { e.lane == lane && (e.kind == LeaseGranted || e.kind == HeadChanged) }

  predicate GrantAt(c: Core, l: LeaseId, i: nat) {
    i < |c.events| && c.events[i].kind == LeaseGranted && c.events[i].lease == Some(l)
  }

  predicate HandoffAt(c: Core, l: LeaseId, v: nat) {
    && v < |c.events| && c.events[v].kind == ValidatingStarted && c.events[v].lease == Some(l)
    && c.events[v].doc.HandoffDoc?
  }

  /** After position `i`, and before `k`, nobody took the lane. */
  ghost predicate Untaken(c: Core, lane: LaneId, i: nat, k: nat) {
    forall j {:trigger c.events[j]} :: i < j < k && j < |c.events| ==> !Takes(c.events[j], lane)
  }

  ghost predicate Held(c: Core, l: LeaseId)
    requires l in c.claims
  {
    exists i :: GrantAt(c, l, i) && Untaken(c, c.claims[l].lane, i, |c.events|)
  }

  ghost predicate HandedOff(c: Core, l: LeaseId)
    requires l in c.claims
  {
    exists i, v :: GrantAt(c, l, i) && i < v && HandoffAt(c, l, v) && c.events[v].doc == c.claims[l].reason
                   && Untaken(c, c.claims[l].lane, i, |c.events|)
  }

  /** An evaluator other than the worker passed the handed-off candidate in time, and the lane was not taken between. */
  predicate PassesAt(c: Core, l: LeaseId, v: nat, k: nat)
    requires HandoffAt(c, l, v)
  {
    && k < |c.events| && IsVerdict(c.events[k]) && c.events[k].lease == Some(l)
    && c.events[k].doc.verdict == Pass && c.events[k].doc.digest == c.events[v].doc.digest
    && c.events[k].doc.evaluator != c.events[v].doc.worker
    && c.events[k].at < c.events[v].doc.deadline
  }

  ghost predicate CertifiedBy(c: Core, l: LeaseId, i: nat, v: nat, k: nat) {
    && l in c.claims && GrantAt(c, l, i) && HandoffAt(c, l, v) && i < v < k && PassesAt(c, l, v, k)
    && Untaken(c, c.claims[l].lane, i, k)
  }

  ghost predicate Certified(c: Core, d: DelegationId) {
    exists l, i, v, k :: CertifiedBy(c, l, i, v, k) && c.claims[l].delegation == d
  }

  predicate AtFence(c: Core, l: LeaseId)
    requires l in c.claims
  {
    c.claims[l].lane in c.lanes && c.claims[l].token == c.lanes[c.claims[l].lane].fence
  }

  /** A live lease has held its lane since it was granted; so has a candidate whose fence is current. */
  ghost predicate WatchOk(c: Core, l: LeaseId)
    requires l in c.claims
  {
    && (Live(c.claims[l]) ==> Held(c, l))
    && (c.claims[l].status == Validating && AtFence(c, l) ==> HandedOff(c, l))
  }

  ghost predicate EvaluatedOk(c: Core, d: DelegationId)
    requires d in c.delegations
  {
    c.delegations[d].evaluated && c.delegations[d].state == Completed ==> Certified(c, d)
  }

  predicate VerdictsDiffer(c: Core, j: nat, k: nat)
    requires j < |c.events| && k < |c.events|
  {
    IsVerdict(c.events[j]) && IsVerdict(c.events[k]) && c.events[j].doc.id == c.events[k].doc.id ==> j == k
  }

  ghost predicate Evaluated(c: Core) {
    && (forall l {:trigger WatchOk(c, l)} :: l in c.claims ==> WatchOk(c, l))
    && (forall d {:trigger EvaluatedOk(c, d)} :: d in c.delegations ==> EvaluatedOk(c, d))
    && (forall j: nat, k: nat {:trigger VerdictsDiffer(c, j, k)} :: j < |c.events| && k < |c.events| ==> VerdictsDiffer(c, j, k))
  }

  // ---- Transactions that neither take a lane nor touch an evaluation ----

  predicate Dull(e: Event) { e.kind != LeaseGranted && e.kind != HeadChanged && e.kind != VerdictRecorded }

  ghost predicate DullSince(c: Core, b: Core) {
    c.events <= b.events && forall j {:trigger b.events[j]} :: |c.events| <= j < |b.events| ==> Dull(b.events[j])
  }

  predicate NoHandoff(c: Core, b: Core, l: LeaseId)
    requires l in b.claims
  {
    l in c.claims && (b.claims[l].status == Validating ==> c.claims[l].status == Validating)
  }

  predicate NoCompletion(c: Core, b: Core, d: DelegationId)
    requires d in b.delegations
  {
    b.delegations[d].evaluated && b.delegations[d].state == Completed ==>
      d in c.delegations && c.delegations[d].evaluated && c.delegations[d].state == Completed
  }

  ghost predicate Hushed(c: Core, b: Core) {
    && DullSince(c, b)
    && (forall l {:trigger NoHandoff(c, b, l)} :: l in b.claims ==> NoHandoff(c, b, l))
    && (forall d {:trigger NoCompletion(c, b, d)} :: d in b.delegations ==> NoCompletion(c, b, d))
  }

  lemma UntakenStays(c: Core, b: Core, lane: LaneId, i: nat)
    requires DullSince(c, b) && Untaken(c, lane, i, |c.events|)
    ensures Untaken(b, lane, i, |b.events|)
  {
    forall j | i < j < |b.events| ensures !Takes(b.events[j], lane) {
      if j < |c.events| { assert b.events[j] == c.events[j]; } else { assert Dull(b.events[j]); }
    }
  }

  lemma CertifiedStays(c: Core, b: Core, d: DelegationId)
    requires c.events <= b.events && ClaimsEvolve(c, b) && Certified(c, d)
    ensures Certified(b, d)
  {
    var l, i, v, k :| CertifiedBy(c, l, i, v, k) && c.claims[l].delegation == d;
    assert ClaimEvolves(c, b, l);
    assert CertifiedBy(b, l, i, v, k);
  }

  lemma HushedWatch(c: Core, b: Core, l: LeaseId)
    requires Consistent(c) && Consistent(b) && Evolves(c, b) && Hushed(c, b) && l in b.claims && l in c.claims && WatchOk(c, l)
    ensures WatchOk(b, l)
  {
    assert NoHandoff(c, b, l) && ClaimEvolves(c, b, l) && ClaimOk(c, l) && ClaimOk(b, l);
    assert LaneEvolves(c, b, c.claims[l].lane);
    if Live(b.claims[l]) {
      var i :| GrantAt(c, l, i) && Untaken(c, c.claims[l].lane, i, |c.events|);
      UntakenStays(c, b, c.claims[l].lane, i);
      assert GrantAt(b, l, i);
    }
    if b.claims[l].status == Validating && AtFence(b, l) {
      var i, v :| GrantAt(c, l, i) && i < v && HandoffAt(c, l, v) && c.events[v].doc == c.claims[l].reason
                  && Untaken(c, c.claims[l].lane, i, |c.events|);
      UntakenStays(c, b, c.claims[l].lane, i);
      assert GrantAt(b, l, i) && HandoffAt(b, l, v);
    }
  }

  lemma HushedKeeps(c: Core, b: Core)
    requires Consistent(c) && Consistent(b) && Evolves(c, b) && Hushed(c, b) && Evaluated(c)
    ensures Evaluated(b)
  {
    forall l | l in b.claims ensures WatchOk(b, l) {
      assert NoHandoff(c, b, l) && WatchOk(c, l);
      HushedWatch(c, b, l);
    }
    forall d | d in b.delegations ensures EvaluatedOk(b, d) {
      assert NoCompletion(c, b, d);
      if b.delegations[d].evaluated && b.delegations[d].state == Completed {
        assert DelegationEvolves(c, b, d) && EvaluatedOk(c, d);
        CertifiedStays(c, b, d);
      }
    }
    forall j: nat, k: nat | j < |b.events| && k < |b.events| ensures VerdictsDiffer(b, j, k) {
      assert j >= |c.events| ==> Dull(b.events[j]);
      assert k >= |c.events| ==> Dull(b.events[k]);
      if j < |c.events| && k < |c.events| { assert VerdictsDiffer(c, j, k); }
    }
  }

  // ---- Transactions that take a lane ----

  /** Among the new events only those of `lane` take a lane, and its fence goes up. */
  ghost predicate TakesOnly(c: Core, b: Core, lane: LaneId) {
    && c.events <= b.events
    && (forall j {:trigger b.events[j]} :: |c.events| <= j < |b.events| ==>
          b.events[j].kind != VerdictRecorded && b.events[j].lane == lane)
    && lane in c.lanes && lane in b.lanes && c.lanes[lane].fence < b.lanes[lane].fence
    && !LaneBusy(c, lane)
    && (forall l {:trigger NoHandoff(c, b, l)} :: l in c.claims && l in b.claims ==> NoHandoff(c, b, l))
    && (forall d {:trigger NoCompletion(c, b, d)} :: d in b.delegations ==> NoCompletion(c, b, d))
    && (forall l {:trigger SameToken(c, b, l)} :: l in c.claims ==> SameToken(c, b, l))
  }

  lemma TakenWatch(c: Core, b: Core, lane: LaneId, l: LeaseId)
    requires Consistent(c) && Consistent(b) && Evolves(c, b) && TakesOnly(c, b, lane)
    requires l in c.claims && l in b.claims && WatchOk(c, l)
    ensures WatchOk(b, l)
  {
    assert NoHandoff(c, b, l) && ClaimEvolves(c, b, l) && ClaimOk(c, l) && ClaimOk(b, l) && SameToken(c, b, l);
    assert LaneEvolves(c, b, c.claims[l].lane);
    if c.claims[l].lane != lane {
      forall i: nat | Untaken(c, c.claims[l].lane, i, |c.events|) ensures Untaken(b, c.claims[l].lane, i, |b.events|) {
        forall j | i < j < |b.events| ensures !Takes(b.events[j], c.claims[l].lane) {
          if j < |c.events| { assert b.events[j] == c.events[j]; }
        }
      }
      if Live(b.claims[l]) {
        var i :| GrantAt(c, l, i) && Untaken(c, c.claims[l].lane, i, |c.events|);
        assert GrantAt(b, l, i);
      }
      if b.claims[l].status == Validating && AtFence(b, l) {
        var i, v :| GrantAt(c, l, i) && i < v && HandoffAt(c, l, v) && c.events[v].doc == c.claims[l].reason
                    && Untaken(c, c.claims[l].lane, i, |c.events|);
        assert GrantAt(b, l, i) && HandoffAt(b, l, v);
      }
    }
  }

  lemma TakeKeeps(c: Core, b: Core, lane: LaneId)
    requires Consistent(c) && Consistent(b) && Evolves(c, b) && TakesOnly(c, b, lane) && Evaluated(c)
    requires forall l :: l in b.claims && l !in c.claims ==> WatchOk(b, l)
    ensures Evaluated(b)
  {
    forall l | l in b.claims ensures WatchOk(b, l) {
      if l in c.claims { assert WatchOk(c, l); TakenWatch(c, b, lane, l); }
    }
    forall d | d in b.delegations ensures EvaluatedOk(b, d) {
      assert NoCompletion(c, b, d);
      if b.delegations[d].evaluated && b.delegations[d].state == Completed {
        assert DelegationEvolves(c, b, d) && EvaluatedOk(c, d);
        CertifiedStays(c, b, d);
      }
    }
    forall j: nat, k: nat | j < |b.events| && k < |b.events| ensures VerdictsDiffer(b, j, k) {
      if j < |c.events| && k < |c.events| { assert VerdictsDiffer(c, j, k); }
    }
  }

  lemma GrantKeepsEvaluated(c: Core, q: Request)
    requires Consistent(c) && Grantable(c, q) && Fresh(c, q) && Evaluated(c)
    ensures Evaluated(Grant(c, q))
  {
    var b := Grant(c, q);
    GrantKeeps(c, q);
    GrantEvolves(c, q);
    assert GrantAt(b, q.lease, |c.events|);
    assert Untaken(b, q.lane, |c.events|, |b.events|);
    assert Held(b, q.lease);
    TakeKeeps(c, b, q.lane);
  }

  lemma MoveHeadKeepsEvaluated(c: Core, lane: LaneId, head: nat, fence: nat, now: int)
    requires Consistent(c) && lane in c.lanes && !LaneBusy(c, lane) && fence > c.lanes[lane].fence && Evaluated(c)
    ensures Evaluated(MoveHead(c, lane, head, fence, now))
  {
    MoveHeadKeeps(c, lane, head, fence, now);
    TakeKeeps(c, MoveHead(c, lane, head, fence, now), lane);
  }

  // ---- The handoff and the verdict ----

  lemma AwaitEvaluationKeepsEvaluated(
    c: Core, lease: LeaseId, token: int, digest: nat, candidate: nat, timeout: int, now: int)
    requires Consistent(c) && AwaitEvaluation(c, lease, token, digest, candidate, timeout, now).Ok? && Evaluated(c)
    ensures Evaluated(AwaitEvaluation(c, lease, token, digest, candidate, timeout, now).value)
  {
    var b := AwaitEvaluation(c, lease, token, digest, candidate, timeout, now).value;
    AwaitEvaluationCalm(c, lease, token, digest, candidate, timeout, now);
    if Live(c.claims[lease]) {
      assert ClaimOk(c, lease) && DullSince(c, b);
      forall l | l in b.claims ensures WatchOk(b, l) {
        assert WatchOk(c, l);
        if l == lease {
          var i :| GrantAt(c, l, i) && Untaken(c, c.claims[l].lane, i, |c.events|);
          UntakenStays(c, b, c.claims[l].lane, i);
          assert GrantAt(b, l, i) && HandoffAt(b, l, |c.events|);
        } else { WatchUnchanged(c, b, l); }
      }
      forall d | d in b.delegations ensures EvaluatedOk(b, d) {
        assert EvaluatedOk(c, d);
        if b.delegations[d].evaluated && b.delegations[d].state == Completed { CertifiedStays(c, b, d); }
      }
      forall j: nat, k: nat | j < |b.events| && k < |b.events| ensures VerdictsDiffer(b, j, k) {
        if j < |c.events| && k < |c.events| { assert VerdictsDiffer(c, j, k); }
      }
    }
  }

  lemma WatchUnchanged(c: Core, b: Core, l: LeaseId)
    requires l in c.claims && l in b.claims && b.claims[l] == c.claims[l] && WatchOk(c, l) && c.events <= b.events
    requires forall j {:trigger b.events[j]} :: |c.events| <= j < |b.events| ==> !Takes(b.events[j], c.claims[l].lane)
    requires AtFence(b, l) ==> AtFence(c, l)
    ensures WatchOk(b, l)
  {
    forall i: nat | Untaken(c, c.claims[l].lane, i, |c.events|) ensures Untaken(b, c.claims[l].lane, i, |b.events|) {
      forall j | i < j < |b.events| ensures !Takes(b.events[j], c.claims[l].lane) {
        if j < |c.events| { assert b.events[j] == c.events[j]; }
      }
    }
    if Live(c.claims[l]) {
      var i :| GrantAt(c, l, i) && Untaken(c, c.claims[l].lane, i, |c.events|);
      assert GrantAt(b, l, i);
    }
    if c.claims[l].status == Validating && AtFence(b, l) {
      var i, v :| GrantAt(c, l, i) && i < v && HandoffAt(c, l, v) && c.events[v].doc == c.claims[l].reason
                  && Untaken(c, c.claims[l].lane, i, |c.events|);
      assert GrantAt(b, l, i) && HandoffAt(b, l, v);
    }
  }

  lemma VerdictCertifies(c: Core, lease: LeaseId, token: int, v: Doc, now: int)
    requires Consistent(c) && EvaluatorVerdict(c, lease, token, v, now).Ok? && Evaluated(c)
    requires FindVerdict(c.events, 0, v.id) == |c.events| && v.verdict == Pass
    ensures Certified(EvaluatorVerdict(c, lease, token, v, now).value, c.claims[lease].delegation)
  {
    assert ClaimOk(c, lease) && WatchOk(c, lease) && AtFence(c, lease);
    var i, h :| GrantAt(c, lease, i) && i < h && HandoffAt(c, lease, h) && c.events[h].doc == c.claims[lease].reason
                && Untaken(c, c.claims[lease].lane, i, |c.events|);
    VerdictCompletes(c, lease, token, v, now, i, h);
  }

  lemma VerdictCompletes(c: Core, lease: LeaseId, token: int, v: Doc, now: int, i: nat, h: nat)
    requires Consistent(c) && EvaluatorVerdict(c, lease, token, v, now).Ok?
    requires FindVerdict(c.events, 0, v.id) == |c.events| && v.verdict == Pass
    requires GrantAt(c, lease, i) && i < h && HandoffAt(c, lease, h) && c.events[h].doc == c.claims[lease].reason
    requires Untaken(c, c.claims[lease].lane, i, |c.events|)
    ensures var b := EvaluatorVerdict(c, lease, token, v, now).value;
            CertifiedBy(b, lease, i, h, |c.events|) && b.claims[lease].delegation == c.claims[lease].delegation
  {
    var b := EvaluatorVerdict(c, lease, token, v, now).value;
    assert HandoffAt(b, lease, h) && PassesAt(b, lease, h, |c.events|);
  }

  lemma VerdictWatched(c: Core, lease: LeaseId, token: int, v: Doc, now: int, l: LeaseId)
    requires Consistent(c) && EvaluatorVerdict(c, lease, token, v, now).Ok? && Evaluated(c)
    requires FindVerdict(c.events, 0, v.id) == |c.events| && l in EvaluatorVerdict(c, lease, token, v, now).value.claims
    ensures WatchOk(EvaluatorVerdict(c, lease, token, v, now).value, l)
  {
    assert ClaimOk(c, lease) && WatchOk(c, l);
    if l != lease { WatchUnchanged(c, EvaluatorVerdict(c, lease, token, v, now).value, l); }
  }

  lemma VerdictEvaluates(c: Core, lease: LeaseId, token: int, v: Doc, now: int, d: DelegationId)
    requires Consistent(c) && EvaluatorVerdict(c, lease, token, v, now).Ok? && Evaluated(c)
    requires FindVerdict(c.events, 0, v.id) == |c.events| && d in EvaluatorVerdict(c, lease, token, v, now).value.delegations
    ensures EvaluatedOk(EvaluatorVerdict(c, lease, token, v, now).value, d)
  {
    var b := EvaluatorVerdict(c, lease, token, v, now).value;
    EvaluatorVerdictCalm(c, lease, token, v, now);
    assert EvaluatedOk(c, d);
    if b.delegations[d].evaluated && b.delegations[d].state == Completed {
      if d == c.claims[lease].delegation { VerdictCertifies(c, lease, token, v, now); } else { CertifiedStays(c, b, d); }
    }
  }

  lemma EvaluatorVerdictKeepsEvaluated(c: Core, lease: LeaseId, token: int, v: Doc, now: int)
    requires Consistent(c) && EvaluatorVerdict(c, lease, token, v, now).Ok? && Evaluated(c)
    ensures Evaluated(EvaluatorVerdict(c, lease, token, v, now).value)
  {
    var b := EvaluatorVerdict(c, lease, token, v, now).value;
    if FindVerdict(c.events, 0, v.id) == |c.events| {
      forall l | l in b.claims ensures WatchOk(b, l) { VerdictWatched(c, lease, token, v, now, l); }
      forall d | d in b.delegations ensures EvaluatedOk(b, d) { VerdictEvaluates(c, lease, token, v, now, d); }
      forall j: nat, k: nat | j < |b.events| && k < |b.events| ensures VerdictsDiffer(b, j, k) {
        if j < |c.events| && k < |c.events| { assert VerdictsDiffer(c, j, k); }
      }
    }
  }
}
