/** The supervisor store itself (tools/second_shift_supervisor_v2.py): its tables are fields, and every public method
    is one transaction that ends as the functions of `SupervisorSpec` say, or raises an error and changes nothing. */
module SupervisorStore {
  import opened Wrappers
  import opened Tables
  import opened Queries
  import opened SupervisorSpec
  import opened SupervisorInvariants
  import opened SupervisorSafety
  import opened StoreSteps
  import opened SupervisorEffects

  lemma HeadMoved(a: Core, lane: LaneId, head: nat, now: int, waiting: seq<LeaseId>, b: Core)
    requires Consistent(a) && KeysDiffer(a) && lane in a.lanes && a.lanes[lane].head != head
    requires Lists(waiting, WaitingOn(DropActive(a, lane, now), lane))
    requires b == MoveHead(Cleared(a, lane, now, waiting), lane, head, a.lanes[lane].fence + 1, now)
    ensures InvalidateHead(a, lane, head, now, waiting) == Ok(b) && Consistent(b) && KeysDiffer(b)
  {
    InvalidateHeadSound(a, lane, head, now, waiting);
    KeysStayDifferent(a, b);
  }

  /** The outcome of a transaction on the tables `a` that should end in `spec`. */
  ghost predicate Ends(r: Res<()>, spec: Res<Core>, a: Core, b: Core) {
    if spec.Ok? then r == Ok(()) && b == spec.value else r == Err(spec.error) && b == a
  }

  class SupervisorStore {
    var lanes: map<LaneId, LaneRow>
    var delegations: map<DelegationId, DelegationRow>
    var claims: map<LeaseId, ClaimRow>
    var outbox: map<DispatchId, OutboxRow>
    var events: seq<Event>

    function Tables(): Core reads this { Core(lanes, delegations, claims, outbox, events) }

    ghost predicate Valid() reads this { Consistent(Tables()) && KeysDiffer(Tables()) }

    constructor ()
      ensures Valid() && Tables() == Core(map[], map[], map[], map[], [])
    {
      lanes, delegations, claims, outbox, events := map[], map[], map[], map[], [];
    }

    /** ROLLBACK */
    method Restore(saved: Core)
      modifies this
      ensures Tables() == saved
    {
      lanes, delegations, claims := saved.lanes, saved.delegations, saved.claims;
      outbox, events := saved.outbox, saved.events;
    }

    /** After a transaction that grants nothing the tables are valid again. */
    lemma StillValid(a: Core)
      requires Consistent(a) && KeysDiffer(a) && Safe(a, Tables())
      ensures Valid()
    { KeysStayDifferent(a, Tables()); }

    // ---- Queries ----

    method FindKey(key: nat) returns (l: Option<LeaseId>)
      requires Valid()
      ensures l.Some? <==> KeyUsed(Tables(), key)
      ensures l.Some? ==> l.value == HolderOf(Tables(), key)
    {
      var found := set x | x in claims && claims[x].key == key;
      if found == {} {
        l := None;
        forall x | x in claims ensures claims[x].key != key { assert x !in found; }
      } else {
        var x :| x in found;
        l := Some(x);
      }
    }

    /** `_active_claim` */
    method ActiveClaim(lane: LaneId) returns (l: Option<LeaseId>)
      requires Valid()
      ensures l.Some? <==> LaneBusy(Tables(), lane)
      ensures l.Some? ==> l.value == ActiveOn(Tables(), lane)
    {
      var found := set x | x in claims && claims[x].lane == lane && Live(claims[x]);
      if found == {} {
        l := None;
        forall x | x in claims && Live(claims[x]) ensures claims[x].lane != lane { assert x !in found; }
      } else {
        var x :| x in found;
        l := Some(x);
      }
    }

    method AnyInEvaluation(lane: LaneId) returns (r: bool)
      ensures r == AwaitsEvaluation(Tables(), lane)
    {
      var found := set d | d in delegations && delegations[d].lane == lane && delegations[d].state == Validating;
      r := found != {};
      if r {
        var d :| d in found;
        assert d in Tables().delegations;
      } else {
        forall d | d in delegations && delegations[d].lane == lane ensures delegations[d].state != Validating { assert d !in found; }
      }
    }

    // ---- The UPDATE statements that the transactions share ----

    /** A live lease ends. */
    method ReleaseRows(lease: LeaseId, s: Status, out: OutboxState, bump: nat, kind: EventKind, reason: Doc, now: int)
      requires lease in claims
      modifies this
      ensures Tables() == Release(old(Tables()), lease, s, out, bump, kind, reason, now)
    {
      ghost var before := Tables();
      var r := claims[lease];
      var token := if kind == CancelLogged && r.lane in lanes then lanes[r.lane].fence + bump else r.token;
      assert token == LoggedToken(before, r, bump, kind);
      claims, delegations := ClaimTo(claims, lease, s, Some(now), reason), DelegationTo(delegations, r.delegation, s);
      lanes, outbox := LaneTo(lanes, r.lane, bump, Reconcile, None), OutboxTo(outbox, r.dispatch, out);
      events := events + [EventOf(now, kind, lease, r, token, reason)];
    }

    // ---- register_lane, bind_ready ----

    method RegisterLane(lane: LaneId, owner: nat, ref: nat, head: nat, now: int)
      returns (r: Res<()>, ghost waiting: seq<LeaseId>)
      requires Valid()
      modifies this
      ensures Valid()
      ensures Ends(r, SupervisorSpec.RegisterLane(old(Tables()), lane, owner, ref, head, now, waiting), old(Tables()), Tables())
      ensures r.Ok? <==> AcceptsLane(old(Tables()), lane, owner, ref)
      ensures r.Ok? ==> HeadTaken(old(Tables()), Tables(), lane, head)
      ensures r.Ok? ==> LaneRegisters(old(Tables()), Tables(), lane, owner, ref, head, now)
    {
      ghost var before := Tables();
      waiting := [];
      if lane !in lanes {
        lanes := lanes[lane := LaneRow(owner, ref, head, 0, Idle, None)];
        events := events + [LaneEvent(now, lane, LaneRegistered, 0)];
        r := Ok(());
        RegisterLaneSound(before, lane, owner, ref, head, now, waiting);
        LaneTaken(before, lane, owner, ref, head, now, waiting);
        StillValid(before);
      } else if lanes[lane].ownerPath != owner || lanes[lane].controlRef != ref {
        r := Err(Conflict);
      } else {
        r, waiting := InvalidateHead(lane, head, now);
      }
    }

    method BindReady(lane: LaneId, d: DelegationId, objective: nat, head: nat, evaluated: bool, now: int) returns (r: Res<()>)
      requires Valid()
      modifies this
      ensures Valid()
      ensures Ends(r, SupervisorSpec.BindReady(old(Tables()), lane, d, objective, head, evaluated, now), old(Tables()), Tables())
      ensures r.Ok? <==> AcceptsWork(old(Tables()), lane, d, objective, head)
      ensures r.Ok? ==> SameWork(Tables(), lane, d, objective, head)
      ensures r.Ok? ==> WorkBound(old(Tables()), Tables(), lane, d, objective, head, evaluated)
    {
      ghost var before := Tables();
      WorkAccepted(before, lane, d, objective, head, evaluated, now);
      if lane !in lanes || lanes[lane].head != head { return Err(Conflict); }
      var active := ActiveClaim(lane);
      var waits := AnyInEvaluation(lane);
      if active.Some? || waits { return Err(Conflict); }
      if d in delegations {
        var e := delegations[d];
        r := if e.lane == lane && e.objective == objective && e.head == head && e.state == Ready then Ok(()) else Err(Conflict);
        return;
      }
      delegations := delegations[d := DelegationRow(lane, objective, head, Ready, evaluated)];
      lanes := LaneTo(lanes, lane, 0, HasReady, Some(d));
      events := events + [Event(now, lane, SuccessorBound, Some(d), None, None, 0, NoDoc),
                          Event(now, lane, WorkReady, Some(d), None, None, 0, NoDoc)];
      r := Ok(());
      BindWrites(before, lane, d, objective, head, evaluated, now);
      BindReadySound(before, lane, d, objective, head, evaluated, now);
      StillValid(before);
    }

    // ---- claim_ready ----

    /** The answer of `claim_ready`: the lease that holds the key. */
    method ClaimReady(q: Request, shiftOpen: bool, queued: set<DelegationId>) returns (r: Res<LeaseId>)
      requires Valid()
      modifies this
      ensures Valid()
      ensures var spec := SupervisorSpec.ClaimReady(old(Tables()), q, shiftOpen, queued);
              if spec.Ok? then
                r.Ok? && Tables() == spec.value && r.value in claims && claims[r.value].key == q.key
                && SameClaim(claims[r.value], q)
              else r == Err(spec.error) && Tables() == old(Tables())
      ensures r.Ok? <==> AcceptsClaim(old(Tables()), q, shiftOpen, queued)
      ensures r.Ok? ==> if KeyUsed(old(Tables()), q.key) then Tables() == old(Tables())
                        else r.value == q.lease && GrantedTo(old(Tables()), Tables(), q)
    {
      ghost var before := Tables();
      ClaimAccepted(before, q, shiftOpen, queued);
      if !shiftOpen { return Err(Conflict); }
      if q.ttl < 30 || q.ttl > 3600 { return Err(BadValue); }
      var prior := FindKey(q.key);
      if prior.Some? {
        r := if SameClaim(claims[prior.value], q) then Ok(prior.value) else Err(Conflict);
        return;
      }
      if q.lane !in lanes || lanes[q.lane].head != q.head { return Err(Conflict); }
      var active := ActiveClaim(q.lane);
      if active.Some? { return Err(Conflict); }
      if q.delegation !in delegations { return Err(Conflict); }
      var d := delegations[q.delegation];
      if d.lane != q.lane || d.objective != q.objective || d.head != q.head || d.state != Ready { return Err(Conflict); }
      if q.lease in claims || q.dispatch in outbox || q.delegation in queued { return Err(Conflict); }
      InsertClaim(q);
      assert SupervisorSpec.ClaimReady(before, q, shiftOpen, queued) == Ok(Tables());
      GrantWrites(before, q);
      GrantKeeps(before, q);
      GrantedKeysDiffer(before, q);
      r := Ok(q.lease);
    }

    /** The four statements of a grant. */
    method InsertClaim(q: Request)
      requires q.lane in lanes
      modifies this
      ensures Tables() == Grant(old(Tables()), q)
    {
      var token := lanes[q.lane].fence + 1;
      var claim := ClaimRow(q.lane, q.delegation, q.objective, q.head, q.key, token,
                            q.now, q.now + q.ttl, q.now, Claimed, None, NoDoc, q.dispatch);
      lanes := lanes[q.lane := lanes[q.lane].(fence := token, state := HasClaim, current := Some(q.delegation))];
      delegations := DelegationTo(delegations, q.delegation, Claimed);
      claims := claims[q.lease := claim];
      outbox := outbox[q.dispatch := OutboxRow(q.lane, q.lease, q.key, token, q.kind, q.payload, Pending, 0, None)];
      events := events + [EventOf(q.now, LeaseGranted, q.lease, claim, token, NoDoc)];
      events := events + [EventOf(q.now, DispatchIntent, q.lease, claim, token, NoDoc)];
    }

    // ---- mark_dispatched, dispatch_failed ----

    method MarkDispatched(d: DispatchId, run: RunId, now: int) returns (r: Res<()>)
      requires Valid()
      modifies this
      ensures Valid()
      ensures Ends(r, SupervisorSpec.MarkDispatched(old(Tables()), d, run, now), old(Tables()), Tables())
      ensures r.Ok? <==> AcceptsRun(old(Tables()), d, run)
      ensures r.Ok? ==> RunRecorded(old(Tables()), Tables(), d, run, now)
    {
      ghost var before := Tables();
      RunAccepted(before, d, run, now);
      if d !in outbox { return Err(Conflict); }
      var o := outbox[d];
      if o.run.Some? {
        r := if o.run.value == run then Ok(()) else Err(Conflict);
        return;
      }
      if o.lease !in claims || !Live(claims[o.lease]) { return Err(StaleWorker); }
      outbox := outbox[d := o.(state := Dispatched, run := Some(run), attempt := o.attempt + 1)];
      events := events + [EventOf(now, RunDispatched, o.lease, claims[o.lease], claims[o.lease].token, NoDoc)];
      r := Ok(());
      assert SupervisorSpec.MarkDispatched(before, d, run, now) == Ok(Tables());
      RunWrites(before, d, run, now);
      MarkDispatchedSound(before, d, run, now);
      StillValid(before);
    }

    /** The scan of the log for an earlier callback with the same failure id. */
    method ScanFailures(failure: nat) returns (k: nat)
      ensures k == FindFailure(events, 0, failure)
    {
      k := 0;
      while k < |events| && !(IsFailure(events[k]) && events[k].doc.failure == failure)
        invariant k <= |events| && FindFailure(events, 0, failure) == FindFailure(events, k, failure)
      {
        k := k + 1;
      }
    }

    method DispatchFailed(d: DispatchId, error: nat, budget: int, failure: nat, now: int) returns (r: Res<Answer>)
      requires Valid()
      modifies this
      ensures Valid()
      ensures var spec := SupervisorSpec.DispatchFailed(old(Tables()), d, error, budget, failure, now);
              if spec.Ok? then Tables() == spec.value.0 && r == Ok(spec.value.1)
              else r == Err(spec.error) && Tables() == old(Tables())
      ensures r.Ok? <==> AcceptsFailure(old(Tables()), d, error, budget, failure)
      ensures r.Ok? ==>
                && FailureLogged(Tables(), d, error, budget, failure, r.value)
                && if FailureIsNew(old(Tables()), failure) then FailureCounted(old(Tables()), Tables(), d, budget, now, r.value)
                   else Tables() == old(Tables())
    {
      ghost var before := Tables();
      FailureAccepted(before, d, error, budget, failure, now);
      if SupervisorSpec.DispatchFailed(before, d, error, budget, failure, now).Ok? {
        FailureWrites(before, d, error, budget, failure, now);
      }
      if budget < 1 || budget > 3 { return Err(BadValue); }
      if d !in outbox { return Err(Conflict); }
      var k := ScanFailures(failure);
      if k < |events| {
        var e := events[k];
        if e.dispatch != Some(d) || e.doc.error != error || e.doc.budget != budget { return Err(Conflict); }
        return Ok(Answer(e.kind == CircuitOpened, e.doc.spent, e.doc.nextAt));
      }
      var o := outbox[d];
      if o.run.Some? || (o.state != Pending && o.state != RetryWait) { return Err(Conflict); }
      var answer := RecordFailure(d, error, budget, failure, now);
      r := Ok(answer);
      DispatchFailedSound(before, d, error, budget, failure, now);
      StillValid(before);
    }

    /** The update and the event of a new failure. */
    method RecordFailure(d: DispatchId, error: nat, budget: int, failure: nat, now: int) returns (answer: Answer)
      requires d in outbox && 1 <= budget <= 3 && FindFailure(events, 0, failure) == |events|
      requires outbox[d].run.None? && (outbox[d].state == Pending || outbox[d].state == RetryWait)
      modifies this
      ensures SupervisorSpec.DispatchFailed(old(Tables()), d, error, budget, failure, now) == Ok((Tables(), answer))
    {
      var o := outbox[d];
      var attempt := o.attempt + 1;
      var state, kind, nextAt := RetryWait, RetryLogged, 0;
      if attempt >= budget {
        state, kind, nextAt := CircuitOpen, CircuitOpened, now + 300;
      } else {
        nextAt := now + Min(60, Pow2(attempt) * 5);
      }
      outbox := outbox[d := o.(state := state, attempt := attempt)];
      events := events + [Event(now, o.lane, kind, None, None, Some(d), o.token,
                                FailureDoc(failure, error, budget, attempt, nextAt))];
      answer := Answer(attempt >= budget, attempt, nextAt);
    }

    // ---- heartbeat, progress, renew_lease ----

    /** `expires` is given when the lease is renewed. */
    method Beat(lease: LeaseId, token: int, expires: Option<int>, kind: EventKind, now: int) returns (r: Res<()>)
      requires Valid() && (kind == Heartbeat || kind == LeaseRenewed)
      modifies this
      ensures Valid()
      ensures Ends(r, SupervisorSpec.Beat(old(Tables()), lease, token, expires, kind, now), old(Tables()), Tables())
      ensures r.Ok? <==> LiveWorker(old(Tables()), lease, token, now)
      ensures r.Ok? ==> BeatsOnly(old(Tables()), Tables(), lease, token, expires, now)
    {
      ghost var before := Tables();
      BeatAccepted(before, lease, token, expires, kind, now);
      if lease !in claims { return Err(Conflict); }
      if !LiveWorker(Tables(), lease, token, now) { return Err(StaleWorker); }
      var c := claims[lease];
      claims := claims[lease := c.(heartbeatAt := now, status := Running,
                                   expiresAt := if expires.Some? then expires.value else c.expiresAt)];
      events := events + [EventOf(now, kind, lease, c, c.token, NoDoc)];
      r := Ok(());
      assert SupervisorSpec.Beat(before, lease, token, expires, kind, now) == Ok(Tables());
      BeatSound(before, lease, token, expires, kind, now);
      StillValid(before);
    }

    // ---- await_evaluation, evaluator_verdict ----

    method AwaitEvaluation(lease: LeaseId, token: int, digest: nat, candidate: nat, timeout: int, now: int) returns (r: Res<()>)
      requires Valid()
      modifies this
      ensures Valid()
      ensures Ends(r, SupervisorSpec.AwaitEvaluation(old(Tables()), lease, token, digest, candidate, timeout, now),
                   old(Tables()), Tables())
      ensures r.Ok? <==> AcceptsHandoff(old(Tables()), lease, token, digest, candidate, timeout, now)
      ensures r.Ok? ==> if LeaseLive(old(Tables()), lease)
                        then HandsOff(old(Tables()), Tables(), lease, digest, candidate, timeout, now) else Tables() == old(Tables())
    {
      ghost var before := Tables();
      HandoffAccepted(before, lease, token, digest, candidate, timeout, now);
      if timeout < 30 || timeout > 3600 { return Err(BadValue); }
      if lease !in claims { return Err(Conflict); }
      var c := claims[lease];
      if c.delegation !in delegations || c.dispatch !in outbox { return Err(Conflict); }
      var o := outbox[c.dispatch];
      if !Live(c) {
        var replay := c.status == Validating && delegations[c.delegation].state == Validating && token == c.token
                      && c.reason.HandoffDoc? && c.reason.digest == digest && c.reason.candidate == candidate
                      && c.reason.timeout == timeout && o.run == Some(c.reason.worker);
        if replay { return Ok(()); }
        if token != c.token || c.status == Stale { return Err(StaleWorker); }
        return Err(Conflict);
      }
      if !LiveWorker(Tables(), lease, token, now) { return Err(StaleWorker); }
      if o.state != Dispatched || o.run.None? { return Err(Conflict); }
      var doc := HandoffDoc(digest, candidate, o.run.value, timeout, now + timeout);
      claims := ClaimTo(claims, lease, Validating, Some(now), doc);
      delegations := DelegationTo(delegations, c.delegation, Validating);
      lanes := LaneTo(lanes, c.lane, 0, Reconcile, None);
      outbox := OutboxTo(outbox, c.dispatch, InValidation);
      events := events + [EventOf(now, ValidatingStarted, lease, c, c.token, doc)];
      r := Ok(());
      assert SupervisorSpec.AwaitEvaluation(before, lease, token, digest, candidate, timeout, now) == Ok(Tables());
      HandoffWrites(before, lease, token, digest, candidate, timeout, now);
      AwaitEvaluationSound(before, lease, token, digest, candidate, timeout, now);
      StillValid(before);
    }

    method ScanVerdicts(id: nat) returns (k: nat)
      ensures k == FindVerdict(events, 0, id)
    {
      k := 0;
      while k < |events| && !(IsVerdict(events[k]) && events[k].doc.id == id)
        invariant k <= |events| && FindVerdict(events, 0, id) == FindVerdict(events, k, id)
      {
        k := k + 1;
      }
    }

    /** Why a verdict on a claim is refused. */
    function Refusal(c: ClaimRow, token: int, v: Doc, now: int): Option<Error>
      reads this
      requires v.VerdictDoc?
    {
      if token != c.token || c.status == Stale then Some(StaleWorker)
      else if c.status != Validating || Live(c) then Some(Conflict)
      else if c.lane !in lanes then Some(Conflict)
      else if lanes[c.lane].head != c.head || lanes[c.lane].fence != c.token then Some(StaleWorker)
      else if !c.reason.HandoffDoc? || c.reason.digest != v.digest || c.reason.worker == v.evaluator then Some(Conflict)
      else if c.reason.deadline <= now then Some(StaleWorker)
      else if c.delegation !in delegations || delegations[c.delegation].state != Validating then Some(Conflict)
      else if c.dispatch !in outbox || outbox[c.dispatch].state != InValidation then Some(Conflict)
      else None
    }

    /** The update of a new verdict, and its events. */
    method WriteVerdict(lease: LeaseId, token: int, v: Doc, now: int)
      requires v.VerdictDoc? && FindVerdict(events, 0, v.id) == |events|
      requires lease in claims && Refusal(claims[lease], token, v, now).None?
      modifies this
      ensures SupervisorSpec.EvaluatorVerdict(old(Tables()), lease, token, v, now) == Ok(Tables())
    {
      var c := claims[lease];
      var state := if v.verdict == Pass then Completed else Blocked;
      claims := ClaimTo(claims, lease, state, c.released, v);
      delegations := DelegationTo(delegations, c.delegation, state);
      outbox := OutboxTo(outbox, c.dispatch, if v.verdict == Pass then OutCompleted else OutBlocked);
      events := events + [EventOf(now, VerdictRecorded, lease, c, c.token, v), EventOf(now, Terminal(state), lease, c, c.token, NoDoc)];
    }

    method EvaluatorVerdict(lease: LeaseId, token: int, v: Doc, now: int) returns (r: Res<()>)
      requires Valid()
      modifies this
      ensures Valid()
      ensures Ends(r, SupervisorSpec.EvaluatorVerdict(old(Tables()), lease, token, v, now), old(Tables()), Tables())
      ensures r.Ok? <==> v.VerdictDoc? && (Recorded(old(Tables()), lease, v)
                                           || (IdIsNew(old(Tables()), v) && AwaitsVerdict(old(Tables()), lease, token, v, now)))
      ensures r.Ok? ==>
                && Recorded(Tables(), lease, v)
                && if IdIsNew(old(Tables()), v) then VerdictEnds(old(Tables()), Tables(), lease, v) else Tables() == old(Tables())
    {
      ghost var before := Tables();
      VerdictAccepted(before, lease, token, v, now);
      if !v.VerdictDoc? { return Err(BadValue); }
      var k := ScanVerdicts(v.id);
      if k < |events| {
        if events[k].lease != Some(lease) || events[k].doc != v { return Err(Conflict); }
        VerdictWrites(before, lease, token, v, now);
        return Ok(());
      }
      if lease !in claims { return Err(Conflict); }
      var c := claims[lease];
      var refusal := Refusal(c, token, v, now);
      if refusal.Some? { return Err(refusal.value); }
      WriteVerdict(lease, token, v, now);
      r := Ok(());
      VerdictWrites(before, lease, token, v, now);
      EvaluatorVerdictSound(before, lease, token, v, now);
      StillValid(before);
    }

    // ---- terminal ----

    method TerminalTx(lease: LeaseId, token: int, s: Status, payload: Doc, now: int) returns (r: Res<()>)
      requires Valid()
      modifies this
      ensures Valid()
      ensures Ends(r, SupervisorSpec.TerminalTx(old(Tables()), lease, token, s, payload, now), old(Tables()), Tables())
      ensures r.Ok? <==> AcceptsEnding(old(Tables()), lease, token, s, payload, now)
      ensures r.Ok? ==> if LeaseLive(old(Tables()), lease) then LeaseEnds(old(Tables()), Tables(), lease, s, payload, now)
                        else Tables() == old(Tables())
    {
      ghost var before := Tables();
      EndingAccepted(before, lease, token, s, payload, now);
      if s != Completed && s != Blocked && s != Stale { return Err(BadValue); }
      if lease !in claims { return Err(Conflict); }
      var c := claims[lease];
      if !Live(c) {
        if c.status == s && token == c.token && c.reason == payload { return Ok(()); }
        if token != c.token || c.status == Stale { return Err(StaleWorker); }
        return Err(Conflict);
      }
      if s != Stale && !LiveWorker(Tables(), lease, token, now) { return Err(StaleWorker); }
      if s == Stale && (c.lane !in lanes || (token != c.token && token != lanes[c.lane].fence)) { return Err(StaleWorker); }
      if s == Completed && c.delegation in delegations && delegations[c.delegation].evaluated { return Err(Conflict); }
      var out := OutCancelled;
      if c.dispatch in outbox { out := if s == Stale then StaleDispatch(outbox[c.dispatch]) else DoneDispatch(outbox[c.dispatch]); }
      ReleaseRows(lease, s, out, 0, Terminal(s), payload, now);
      r := Ok(());
      TerminalWrites(before, lease, token, s, payload, now);
      TerminalSound(before, lease, token, s, payload, now);
      StillValid(before);
    }

    // ---- invalidate_head ----

    method InvalidateHead(lane: LaneId, head: nat, now: int) returns (r: Res<()>, ghost waiting: seq<LeaseId>)
      requires Valid()
      modifies this
      ensures Valid()
      ensures Ends(r, SupervisorSpec.InvalidateHead(old(Tables()), lane, head, now, waiting), old(Tables()), Tables())
      ensures r.Ok? <==> lane in old(lanes)
      ensures r.Ok? ==> HeadTaken(old(Tables()), Tables(), lane, head)
      ensures r.Ok? ==> if old(lanes)[lane].head == head then Tables() == old(Tables())
                        else HeadMoves(old(Tables()), Tables(), lane, head, now)
    {
      ghost var before := Tables();
      waiting := [];
      if lane !in lanes { return Err(Conflict), []; }
      if lanes[lane].head == head { return Ok(()), []; }
      var fence := lanes[lane].fence + 1;
      StaleActive(lane, now);
      var rows := Select(WaitingOn(Tables(), lane));
      waiting := rows;
      StaleCandidates(rows, now);
      StaleAllWaitingFrame(DropActive(before, lane, now), rows, now);
      WriteHead(lane, head, fence, now);
      r := Ok(());
      HeadMoved(before, lane, head, now, rows, Tables());
      HeadChanges(before, lane, head, now, rows);
      HeadWrites(before, lane, head, now, rows);
    }

    method StaleActive(lane: LaneId, now: int)
      requires Valid()
      modifies this
      ensures Tables() == DropActive(old(Tables()), lane, now) && lanes.Keys == old(lanes).Keys
    {
      var active := ActiveClaim(lane);
      if active.Some? {
        var l := active.value;
        ReleaseRows(l, Stale, StaleOut(Tables(), l), 0, Terminal(Stale), OtherDoc(0), now);
      }
    }

    method WriteHead(lane: LaneId, head: nat, fence: nat, now: int)
      requires lane in lanes
      modifies this
      ensures Tables() == MoveHead(old(Tables()), lane, head, fence, now)
    {
      delegations := map d | d in delegations ::
                       if delegations[d].lane == lane && delegations[d].state == Ready
                       then delegations[d].(state := Stale) else delegations[d];
      lanes := lanes[lane := lanes[lane].(head := head, fence := fence, state := Reconcile, current := None)];
      events := events + [LaneEvent(now, lane, HeadChanged, fence)];
    }

    /** The loop over the candidates that wait for an evaluator. */
    method StaleCandidates(rows: seq<LeaseId>, now: int)
      modifies this
      ensures Tables() == StaleAllWaiting(old(Tables()), rows, now)
    {
      var i := 0;
      while i < |rows|
        invariant i <= |rows|
        invariant StaleAllWaiting(Tables(), rows[i..], now) == StaleAllWaiting(old(Tables()), rows, now)
      {
        ghost var t := Tables();
        var l := rows[i];
        if l in claims {
          var c := claims[l];
          claims := ClaimTo(claims, l, Stale, c.released, OtherDoc(0));
          if c.delegation in delegations && delegations[c.delegation].state == Validating {
            delegations := DelegationTo(delegations, c.delegation, Stale);
          }
          if c.dispatch in outbox && outbox[c.dispatch].state == InValidation {
            outbox := OutboxTo(outbox, c.dispatch, OutCancelled);
          }
          events := events + [EventOf(now, Terminal(Stale), l, c, c.token, OtherDoc(0))];
        }
        assert Tables() == StaleWaiting(t, l, now);
        assert rows[i..][1..] == rows[i + 1..];
        i := i + 1;
      }
    }

    // ---- recover ----

    /** Answers the leases that became stale. */
    method Recover(now: int, sla: int) returns (stale: seq<LeaseId>, ghost live: seq<LeaseId>, ghost waiting: seq<LeaseId>)
      requires Valid()
      modifies this
      ensures Valid()
      ensures SupervisorSpec.Recover(old(Tables()), now, sla, live, waiting) == Ok(Tables())
      ensures forall l :: l in stale <==> FoundStale(old(Tables()), now, sla, live, waiting, l)
      ensures forall l :: l in stale ==> l in claims && claims[l].status == Stale
      ensures RecoverEnds(old(Tables()), Tables(), now, sla)
    {
      ghost var before := Tables();
      var rows := Select(LiveLeases(Tables()));
      live := rows;
      var expired := ExpireLeases(rows, now, sla);
      ghost var middle := Tables();
      var late := Select(WaitingLeases(Tables()));
      waiting := late;
      var timedOut := TimeOutCandidates(late, now);
      stale := expired + timedOut;
      RecoverSafe(before, now, sla, live, waiting);
      RecoverEffect(before, now, sla, live, waiting);
      forall l | l in stale ensures l in claims && claims[l].status == Stale { FoundBecomeStale(before, now, sla, live, waiting, l); }
      StillValid(before);
    }

    method ExpireLeases(rows: seq<LeaseId>, now: int, sla: int) returns (expired: seq<LeaseId>)
      requires Distinct(rows)
      modifies this
      ensures Tables() == RecoverLive(old(Tables()), rows, now, sla)
      ensures forall l :: l in expired <==> l in rows && l in old(claims) && Expired(old(claims)[l], now, sla)
    {
      expired := [];
      var i := 0;
      while i < |rows|
        invariant i <= |rows|
        invariant RecoverLive(Tables(), rows[i..], now, sla) == RecoverLive(old(Tables()), rows, now, sla)
        invariant forall l :: l in rows[i..] ==> (l in claims <==> l in old(claims)) && (l in claims ==> claims[l] == old(claims)[l])
        invariant forall l :: l in expired <==> l in rows[..i] && l in old(claims) && Expired(old(claims)[l], now, sla)
      {
        ghost var t := Tables();
        var l := rows[i];
        assert rows[i..][1..] == rows[i + 1..] && rows[..i + 1] == rows[..i] + [l] && l == rows[i..][0];
        if l in claims && Expired(claims[l], now, sla) {
          expired := expired + [l];
          ReleaseRows(l, Stale, StaleOut(Tables(), l), 1, Terminal(Stale), OtherDoc(1), now);
        }
        assert Tables() == RecoverOne(t, l, now, sla);
        i := i + 1;
      }
      assert rows[..i] == rows;
    }

    method TimeOutCandidates(rows: seq<LeaseId>, now: int) returns (late: seq<LeaseId>)
      requires Distinct(rows)
      modifies this
      ensures Tables() == TimeoutAll(old(Tables()), rows, now)
      ensures forall l :: l in late <==> l in rows && l in old(claims) && TimedOut(old(claims)[l], now)
    {
      late := [];
      var i := 0;
      while i < |rows|
        invariant i <= |rows|
        invariant TimeoutAll(Tables(), rows[i..], now) == TimeoutAll(old(Tables()), rows, now)
        invariant forall l :: l in rows[i..] ==> (l in claims <==> l in old(claims)) && (l in claims ==> claims[l] == old(claims)[l])
        invariant forall l :: l in late <==> l in rows[..i] && l in old(claims) && TimedOut(old(claims)[l], now)
      {
        ghost var t := Tables();
        var l := rows[i];
        assert rows[i..][1..] == rows[i + 1..] && rows[..i + 1] == rows[..i] + [l] && l == rows[i..][0];
        if l in claims && TimedOut(claims[l], now) {
          var c := claims[l];
          late := late + [l];
          claims := ClaimTo(claims, l, Stale, c.released, OtherDoc(2));
          delegations := DelegationTo(delegations, c.delegation, Stale);
          lanes := LaneTo(lanes, c.lane, 1, Reconcile, None);
          outbox := OutboxTo(outbox, c.dispatch, OutCancelled);
          events := events + [EventOf(now, Terminal(Stale), l, c, c.token, OtherDoc(2))];
        }
        assert Tables() == TimeoutOne(t, l, now);
        i := i + 1;
      }
      assert rows[..i] == rows;
    }
  }
}
