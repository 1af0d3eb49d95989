/** Every supervisor transaction that grants and recovers no lease: consistency, forward movement, and the
    promises about the validation guard, independent evaluation and failure accounting, all at once. */
module StoreSteps {
  import opened Wrappers
  import opened Tables
  import opened SupervisorSpec
  import opened SupervisorInvariants
  import opened SupervisorSafety
  import opened EvaluationSafety
  import opened FailureSafety
  import opened ValidationGuard

  ghost predicate Kept(a: Core, b: Core) {
    && Forward(a, b)
    && (Guarded(a) ==> Guarded(b))
    && (Evaluated(a) ==> Evaluated(b))
    && (Accounted(a) ==> Accounted(b))
  }

  /** What even the timeout of an evaluation keeps. */
  ghost predicate Safe(a: Core, b: Core) { Kept(a, b) && Steady(a, b) }

  /** All other transactions also leave the lane rows in step with the live claims. */
  ghost predicate Sound(a: Core, b: Core) { Safe(a, b) && (Shown(a) ==> Shown(b)) }

  lemma KeptTwice(a: Core, b: Core, c: Core)
    requires Consistent(a) && Kept(a, b) && Kept(b, c)
    ensures Kept(a, c)
  { ForwardTwice(a, b, c); }

  lemma SafeTwice(a: Core, b: Core, c: Core)
    requires Consistent(a) && Safe(a, b) && Safe(b, c)
    ensures Safe(a, c)
  { CalmTwice(a, b, c); }

  lemma SoundTwice(a: Core, b: Core, c: Core)
    requires Consistent(a) && Sound(a, b) && Sound(b, c)
    ensures Sound(a, c)
  { CalmTwice(a, b, c); }

  lemma SoundSame(c: Core)
    requires Consistent(c)
    ensures Sound(c, c)
  { CalmSame(c); }

  /** New events that take no lane, record no verdict and no failure. */
  ghost predicate PlainSince(c: Core, b: Core) {
    c.events <= b.events
    && forall j {:trigger b.events[j]} :: |c.events| <= j < |b.events| ==> Dull(b.events[j]) && !IsFailure(b.events[j])
  }

  /** A change around one claim that hands nothing off, completes no evaluated work and retries nothing. */
  ghost predicate PlainTouch(c: Core, b: Core, lease: LeaseId) {
    && Touches(c, b, lease) && PlainSince(c, b)
    && var r := c.claims[lease];
    && b.claims[lease].token == r.token
    && (b.claims[lease].status == Validating ==> r.status == Validating)
    && (b.delegations[r.delegation].evaluated && b.delegations[r.delegation].state == Completed ==>
          c.delegations[r.delegation].state == Completed)
    && SameAccount(c, b, r.dispatch)
  }

  lemma TouchSafe(c: Core, b: Core, lease: LeaseId)
    requires Consistent(c) && PlainTouch(c, b, lease) && (Guarded(c) ==> Guarded(b))
    ensures Safe(c, b)
  {
    Touched(c, b, lease);
    TouchHushed(c, b, lease);
    if Evaluated(c) { HushedKeeps(c, b); }
    if Accounted(c) { FailureFreeKeeps(c, b); }
  }

  lemma TouchSound(c: Core, b: Core, lease: LeaseId)
    requires Consistent(c) && PlainTouch(c, b, lease) && (LaneUntouched(c, b, lease) || LaneFollows(c, b, lease))
    ensures Sound(c, b)
  {
    if Guarded(c) { TouchGuarded(c, b, lease); }
    if Shown(c) { TouchShown(c, b, lease); }
    TouchSafe(c, b, lease);
  }

  lemma TouchHushed(c: Core, b: Core, lease: LeaseId)
    requires Consistent(c) && PlainTouch(c, b, lease)
    ensures Hushed(c, b) && FailureFree(c, b)
  {
    forall d | d in b.outbox ensures SameAccount(c, b, d) {
      if d != c.claims[lease].dispatch { assert b.outbox[d] == c.outbox[d]; }
    }
  }

  /** Changes that leave all claims and dispatches alone. */
  lemma ClaimFreeSound(c: Core, b: Core)
    requires Consistent(c) && Forward(c, b) && b.claims == c.claims && b.outbox == c.outbox && PlainSince(c, b)
    requires forall d :: d in b.delegations && b.delegations[d].state == Completed ==> d in c.delegations && c.delegations[d].state == Completed
    requires Shown(c) ==> Shown(b) && (OneOpen(c) ==> OneOpen(b))
    ensures Sound(c, b)
  {
    assert Hushed(c, b) by {
      forall d | d in b.delegations ensures NoCompletion(c, b, d) {
        if d in c.delegations { assert DelegationEvolves(c, b, d); }
      }
    }
    if Evaluated(c) { HushedKeeps(c, b); }
    if Accounted(c) { FailureFreeKeeps(c, b); }
  }

  lemma LogSound(c: Core, more: seq<Event>)
    requires Consistent(c) && forall e :: e in more ==> Dull(e) && !IsFailure(e)
    ensures Sound(c, c.(events := c.events + more))
  {
    var b := c.(events := c.events + more);
    LogKeeps(c, more);
    forall j | |c.events| <= j < |b.events| ensures Dull(b.events[j]) && !IsFailure(b.events[j]) {
      assert b.events[j] in more;
    }
    if Shown(c) { SameClaimsGuarded(c, b); }
    ClaimFreeSound(c, b);
  }

  // ---- One claim ends ----

  /** How a live lease may end. */
  ghost predicate MayEnd(c: Core, lease: LeaseId, s: Status, out: OutboxState, bump: nat, kind: EventKind) {
    && LeaseLive(c, lease)
    && (s == Completed || s == Blocked || s == Stale || (s == Cancelled && bump > 0))
    && (out == CancelRequested ==> c.claims[lease].dispatch in c.outbox && c.outbox[c.claims[lease].dispatch].run.Some?)
    && (s == Completed && c.claims[lease].delegation in c.delegations ==> !c.delegations[c.claims[lease].delegation].evaluated)
    && !Retryable(out) && (kind == CancelLogged || kind == Terminal(s))
  }

  lemma ReleaseTouches(
    c: Core, lease: LeaseId, s: Status, out: OutboxState, bump: nat, kind: EventKind, reason: Doc, now: int)
    requires Consistent(c) && MayEnd(c, lease, s, out, bump, kind)
    ensures Touches(c, Release(c, lease, s, out, bump, kind, reason, now), lease)
  { assert ClaimOk(c, lease); }

  lemma ReleasePlain(
    c: Core, lease: LeaseId, s: Status, out: OutboxState, bump: nat, kind: EventKind, reason: Doc, now: int)
    requires Consistent(c) && MayEnd(c, lease, s, out, bump, kind)
    ensures PlainTouch(c, Release(c, lease, s, out, bump, kind, reason, now), lease)
    ensures LaneFollows(c, Release(c, lease, s, out, bump, kind, reason, now), lease)
  {
    assert ClaimOk(c, lease);
    ReleaseTouches(c, lease, s, out, bump, kind, reason, now);
  }

  lemma ReleaseSound(
    c: Core, lease: LeaseId, s: Status, out: OutboxState, bump: nat, kind: EventKind, reason: Doc, now: int)
    requires Consistent(c) && MayEnd(c, lease, s, out, bump, kind)
    ensures Sound(c, Release(c, lease, s, out, bump, kind, reason, now))
  {
    ReleasePlain(c, lease, s, out, bump, kind, reason, now);
    TouchSound(c, Release(c, lease, s, out, bump, kind, reason, now), lease);
  }

  lemma TerminalSound(c: Core, lease: LeaseId, token: int, s: Status, payload: Doc, now: int)
    requires Consistent(c) && TerminalTx(c, lease, token, s, payload, now).Ok?
    ensures Sound(c, TerminalTx(c, lease, token, s, payload, now).value)
  {
    assert ClaimOk(c, lease);
    if !Live(c.claims[lease]) { SoundSame(c); }
    else {
      var out := if s == Stale then StaleOut(c, lease) else DoneDispatch(c.outbox[c.claims[lease].dispatch]);
      ReleaseSound(c, lease, s, out, 0, Terminal(s), payload, now);
    }
  }

  lemma StaleWaitingPlain(c: Core, lease: LeaseId, now: int)
    requires Consistent(c) && lease in c.claims && c.claims[lease].status == Validating
    ensures PlainTouch(c, StaleWaiting(c, lease, now), lease) && LaneUntouched(c, StaleWaiting(c, lease, now), lease)
  { assert ClaimOk(c, lease); }

  lemma StaleWaitingSound(c: Core, lease: LeaseId, now: int)
    requires Consistent(c) && (lease in c.claims ==> c.claims[lease].status == Validating)
    ensures Sound(c, StaleWaiting(c, lease, now))
  {
    if lease in c.claims {
      StaleWaitingPlain(c, lease, now);
      TouchSound(c, StaleWaiting(c, lease, now), lease);
    } else { SoundSame(c); }
  }

  lemma TimeoutGuarded(c: Core, lease: LeaseId, now: int)
    requires Consistent(c) && Guarded(c) && lease in c.claims && c.claims[lease].status == Validating
    requires TimedOut(c.claims[lease], now)
    ensures Guarded(TimeoutOne(c, lease, now))
  {
    assert ClaimOk(c, lease);
    forall l | l in c.claims && Live(c.claims[l]) && c.claims[l].lane == c.claims[lease].lane ensures l == lease {
      assert OpenTogether(c, l, lease);
    }
    TouchGuarded(c, TimeoutOne(c, lease, now), lease);
  }

  lemma TimeoutPlain(c: Core, lease: LeaseId, now: int)
    requires Consistent(c) && lease in c.claims && c.claims[lease].status == Validating && TimedOut(c.claims[lease], now)
    ensures PlainTouch(c, TimeoutOne(c, lease, now), lease)
  { assert ClaimOk(c, lease); }

  lemma TimeoutOneSafe(c: Core, lease: LeaseId, now: int)
    requires Consistent(c) && (lease in c.claims ==> c.claims[lease].status == Validating)
    ensures Safe(c, TimeoutOne(c, lease, now))
  {
    if lease in c.claims && TimedOut(c.claims[lease], now) {
      TimeoutPlain(c, lease, now);
      if Guarded(c) { TimeoutGuarded(c, lease, now); }
      TouchSafe(c, TimeoutOne(c, lease, now), lease);
    } else { SoundSame(c); }
  }

  lemma RecoverOneSound(c: Core, lease: LeaseId, now: int, sla: int)
    requires Consistent(c) && LeaseLive(c, lease)
    ensures Sound(c, RecoverOne(c, lease, now, sla))
  {
    assert ClaimOk(c, lease);
    if Expired(c.claims[lease], now, sla) {
      ReleaseSound(c, lease, Stale, StaleOut(c, lease), 1, Terminal(Stale), OtherDoc(1), now);
    } else { SoundSame(c); }
  }

  // ---- Loops over the rows of a query ----

  ghost predicate AllWaiting(c: Core, rows: seq<LeaseId>) {
    forall l :: l in rows && l in c.claims ==> c.claims[l].status == Validating
  }

  ghost predicate AllLive(c: Core, rows: seq<LeaseId>) { forall l :: l in rows ==> LeaseLive(c, l) }

  /** A step on the first row leaves the claims of the other rows alone. */
  lemma TailRows(c: Core, b: Core, rows: seq<LeaseId>)
    requires rows != [] && Distinct(rows)
    requires forall l :: l != rows[0] ==> (l in b.claims <==> l in c.claims) && (l in c.claims ==> b.claims[l] == c.claims[l])
    ensures Distinct(rows[1..])
    ensures AllWaiting(c, rows) ==> AllWaiting(b, rows[1..])
    ensures AllLive(c, rows) ==> AllLive(b, rows[1..])
  {
    forall l | l in rows[1..] ensures l in rows && l != rows[0] { }
  }

  lemma {:induction false} StaleAllWaitingSound(c: Core, rows: seq<LeaseId>, now: int)
    requires Consistent(c) && Distinct(rows) && AllWaiting(c, rows)
    ensures Sound(c, StaleAllWaiting(c, rows, now))
    decreases |rows|
  {
    if rows == [] { SoundSame(c); }
    else {
      var c1 := StaleWaiting(c, rows[0], now);
      StaleWaitingSound(c, rows[0], now);
      TailRows(c, c1, rows);
      StaleAllWaitingSound(c1, rows[1..], now);
      SoundTwice(c, c1, StaleAllWaiting(c, rows, now));
    }
  }

  lemma RecoverOneTail(c: Core, rows: seq<LeaseId>, now: int, sla: int)
    requires rows != [] && Distinct(rows) && AllLive(c, rows)
    ensures Distinct(rows[1..]) && AllLive(RecoverOne(c, rows[0], now, sla), rows[1..])
  { TailRows(c, RecoverOne(c, rows[0], now, sla), rows); }

  lemma {:induction false} RecoverLiveSound(c: Core, rows: seq<LeaseId>, now: int, sla: int)
    requires Consistent(c) && Distinct(rows) && AllLive(c, rows)
    ensures Sound(c, RecoverLive(c, rows, now, sla))
    decreases |rows|
  {
    if rows == [] { SoundSame(c); }
    else {
      var c1 := RecoverOne(c, rows[0], now, sla);
      RecoverOneSound(c, rows[0], now, sla);
      RecoverOneTail(c, rows, now, sla);
      RecoverLiveSound(c1, rows[1..], now, sla);
      SoundTwice(c, c1, RecoverLive(c, rows, now, sla));
    }
  }

  lemma {:induction false} TimeoutAllSafe(c: Core, rows: seq<LeaseId>, now: int)
    requires Consistent(c) && Distinct(rows) && AllWaiting(c, rows)
    ensures Safe(c, TimeoutAll(c, rows, now))
    decreases |rows|
  {
    if rows == [] { SoundSame(c); }
    else {
      var c1 := TimeoutOne(c, rows[0], now);
      TimeoutOneSafe(c, rows[0], now);
      TailRows(c, c1, rows);
      TimeoutAllSafe(c1, rows[1..], now);
      SafeTwice(c, c1, TimeoutAll(c, rows, now));
    }
  }

  lemma RecoverSafe(c: Core, now: int, sla: int, live: seq<LeaseId>, waiting: seq<LeaseId>)
    requires Consistent(c) && Recover(c, now, sla, live, waiting).Ok?
    ensures Safe(c, Recover(c, now, sla, live, waiting).value)
  {
    var c1 := RecoverLive(c, live, now, sla);
    RecoverLiveSound(c, live, now, sla);
    TimeoutAllSafe(c1, waiting, now);
    SafeTwice(c, c1, TimeoutAll(c1, waiting, now));
  }

  /** The claim keeps its status, or the counter of its lane has grown. */
  predicate EndedFenced(c: Core, b: Core, l: LeaseId)
    requires l in c.claims && c.claims[l].lane in c.lanes
  {
    && l in b.claims && b.claims[l].lane == c.claims[l].lane && c.claims[l].lane in b.lanes
    && c.lanes[c.claims[l].lane].fence <= b.lanes[c.claims[l].lane].fence
    && (b.claims[l].status != c.claims[l].status ==> c.lanes[c.claims[l].lane].fence < b.lanes[c.claims[l].lane].fence)
  }

  lemma EndedFencedTwice(a: Core, b: Core, c: Core, l: LeaseId)
    requires l in a.claims && a.claims[l].lane in a.lanes && EndedFenced(a, b, l) && EndedFenced(b, c, l)
    ensures EndedFenced(a, c, l)
  { }

  lemma RecoverOneFences(c: Core, lease: LeaseId, now: int, sla: int, l: LeaseId)
    requires Consistent(c) && LeaseLive(c, lease) && l in c.claims && c.claims[l].lane in c.lanes
    ensures EndedFenced(c, RecoverOne(c, lease, now, sla), l)
  { assert ClaimOk(c, l) && ClaimOk(c, lease); }

  lemma {:induction false} RecoverLiveFences(c: Core, rows: seq<LeaseId>, now: int, sla: int, l: LeaseId)
    requires Consistent(c) && Distinct(rows) && AllLive(c, rows) && l in c.claims && c.claims[l].lane in c.lanes
    ensures EndedFenced(c, RecoverLive(c, rows, now, sla), l)
    decreases |rows|
  {
    if rows != [] {
      var c1 := RecoverOne(c, rows[0], now, sla);
      assert rows[0] in rows;
      RecoverOneSound(c, rows[0], now, sla);
      RecoverOneFences(c, rows[0], now, sla, l);
      RecoverOneTail(c, rows, now, sla);
      RecoverLiveFences(c1, rows[1..], now, sla, l);
      EndedFencedTwice(c, c1, RecoverLive(c, rows, now, sla), l);
    }
  }

  lemma TimeoutOneFences(c: Core, lease: LeaseId, now: int, l: LeaseId)
    requires Consistent(c) && l in c.claims && c.claims[l].lane in c.lanes
    ensures EndedFenced(c, TimeoutOne(c, lease, now), l)
  { assert ClaimOk(c, l) && (lease in c.claims ==> ClaimOk(c, lease)); }

  lemma {:induction false} TimeoutAllFences(c: Core, rows: seq<LeaseId>, now: int, l: LeaseId)
    requires Consistent(c) && Distinct(rows) && AllWaiting(c, rows) && l in c.claims && c.claims[l].lane in c.lanes
    ensures EndedFenced(c, TimeoutAll(c, rows, now), l)
    decreases |rows|
  {
    if rows != [] {
      var c1 := TimeoutOne(c, rows[0], now);
      assert rows[0] in rows;
      TimeoutOneSafe(c, rows[0], now);
      TimeoutOneFences(c, rows[0], now, l);
      TailRows(c, c1, rows);
      TimeoutAllFences(c1, rows[1..], now, l);
      EndedFencedTwice(c, c1, TimeoutAll(c, rows, now), l);
    }
  }

  /** Every lease that a recovery ends, by expiry or by the timeout of its evaluation, raises the counter of its lane. */
  lemma RecoverFences(c: Core, now: int, sla: int, live: seq<LeaseId>, waiting: seq<LeaseId>, l: LeaseId)
    requires Consistent(c) && Recover(c, now, sla, live, waiting).Ok? && l in c.claims && c.claims[l].lane in c.lanes
    ensures EndedFenced(c, Recover(c, now, sla, live, waiting).value, l)
  {
    var c1 := RecoverLive(c, live, now, sla);
    RecoverLiveSound(c, live, now, sla);
    RecoverLiveFences(c, live, now, sla, l);
    TimeoutAllFences(c1, waiting, now, l);
  }

  /** The leases that a recovery finds: expired live ones, and candidates whose evaluation timed out. */
  ghost predicate FoundStale(c: Core, now: int, sla: int, live: seq<LeaseId>, waiting: seq<LeaseId>, l: LeaseId) {
    || (l in live && l in c.claims && Expired(c.claims[l], now, sla))
    || (l in waiting && l in RecoverLive(c, live, now, sla).claims
        && TimedOut(RecoverLive(c, live, now, sla).claims[l], now))
  }

  lemma {:induction false} RecoverLiveEnds(c: Core, rows: seq<LeaseId>, now: int, sla: int, l: LeaseId)
    requires Distinct(rows) && l in c.claims
    ensures l in RecoverLive(c, rows, now, sla).claims
    ensures RecoverLive(c, rows, now, sla).claims[l].status
            == if l in rows && Expired(c.claims[l], now, sla) then Stale else c.claims[l].status
    decreases |rows|
  {
    if rows != [] { RecoverLiveEnds(RecoverOne(c, rows[0], now, sla), rows[1..], now, sla, l); }
  }

  lemma {:induction false} TimeoutAllEnds(c: Core, rows: seq<LeaseId>, now: int, l: LeaseId)
    requires Distinct(rows) && l in c.claims
    ensures l in TimeoutAll(c, rows, now).claims
    ensures TimeoutAll(c, rows, now).claims[l].status == if l in rows && TimedOut(c.claims[l], now) then Stale else c.claims[l].status
    decreases |rows|
  {
    if rows != [] { TimeoutAllEnds(TimeoutOne(c, rows[0], now), rows[1..], now, l); }
  }

  /** Whatever a recovery finds is STALE afterwards. */
  lemma FoundBecomeStale(c: Core, now: int, sla: int, live: seq<LeaseId>, waiting: seq<LeaseId>, l: LeaseId)
    requires Consistent(c) && Recover(c, now, sla, live, waiting).Ok? && FoundStale(c, now, sla, live, waiting, l)
    ensures var b := Recover(c, now, sla, live, waiting).value; l in b.claims && b.claims[l].status == Stale
  {
    var c1 := RecoverLive(c, live, now, sla);
    RecoverLiveSound(c, live, now, sla);
    if l in c.claims { RecoverLiveEnds(c, live, now, sla, l); }
    TimeoutAllEnds(c1, waiting, now, l);
  }

  // ---- The control head ----

  lemma {:induction false} StaleAllWaitingFrame(c: Core, rows: seq<LeaseId>, now: int)
    ensures StaleAllWaiting(c, rows, now).lanes == c.lanes
    ensures forall l :: LeaseLive(StaleAllWaiting(c, rows, now), l) == LeaseLive(c, l)
    ensures forall l :: LeaseLive(c, l) ==>
              LeaseLive(StaleAllWaiting(c, rows, now), l) && StaleAllWaiting(c, rows, now).claims[l].lane == c.claims[l].lane
    decreases |rows|
  {
    if rows != [] { StaleAllWaitingFrame(StaleWaiting(c, rows[0], now), rows[1..], now); }
  }

  lemma DropActiveSound(c: Core, lane: LaneId, now: int)
    requires Consistent(c)
    ensures Sound(c, DropActive(c, lane, now)) && !LaneBusy(DropActive(c, lane, now), lane)
    ensures DropActive(c, lane, now).lanes.Keys == c.lanes.Keys
    ensures lane in c.lanes ==> DropActive(c, lane, now).lanes[lane].fence == c.lanes[lane].fence
  {
    if LaneBusy(c, lane) {
      var l := ActiveOn(c, lane);
      assert ClaimOk(c, l);
      ReleaseSound(c, l, Stale, StaleOut(c, l), 0, Terminal(Stale), OtherDoc(0), now);
    } else { SoundSame(c); }
  }

  lemma ClearedIdle(c: Core, lane: LaneId, now: int, waiting: seq<LeaseId>)
    requires !LaneBusy(DropActive(c, lane, now), lane)
    ensures !LaneBusy(Cleared(c, lane, now, waiting), lane)
  {
    StaleAllWaitingFrame(DropActive(c, lane, now), waiting, now);
    var b := Cleared(c, lane, now, waiting);
    forall l | l in b.claims && Live(b.claims[l]) ensures b.claims[l].lane != lane {
      assert LeaseLive(b, l);
      assert LeaseLive(DropActive(c, lane, now), l);
    }
  }

  lemma ClearedSound(c: Core, lane: LaneId, now: int, waiting: seq<LeaseId>)
    requires Consistent(c) && lane in c.lanes && Lists(waiting, WaitingOn(DropActive(c, lane, now), lane))
    ensures Sound(c, Cleared(c, lane, now, waiting)) && !LaneBusy(Cleared(c, lane, now, waiting), lane)
    ensures lane in Cleared(c, lane, now, waiting).lanes
    ensures Cleared(c, lane, now, waiting).lanes[lane].fence == c.lanes[lane].fence
  {
    DropActiveSound(c, lane, now);
    StaleAllWaitingSound(DropActive(c, lane, now), waiting, now);
    SoundTwice(c, DropActive(c, lane, now), Cleared(c, lane, now, waiting));
    ClearedIdle(c, lane, now, waiting);
    StaleAllWaitingFrame(DropActive(c, lane, now), waiting, now);
  }

  lemma MoveHeadSound(c: Core, lane: LaneId, head: nat, fence: nat, now: int)
    requires Consistent(c) && lane in c.lanes && !LaneBusy(c, lane) && fence > c.lanes[lane].fence
    ensures Sound(c, MoveHead(c, lane, head, fence, now))
  {
    var b := MoveHead(c, lane, head, fence, now);
    MoveHeadKeeps(c, lane, head, fence, now);
    if Evaluated(c) { MoveHeadKeepsEvaluated(c, lane, head, fence, now); }
    if Accounted(c) { FailureFreeKeeps(c, b); }
    if Shown(c) { SameClaimsGuarded(c, b); }
  }

  lemma ClearedMoved(c: Core, lane: LaneId, head: nat, now: int, waiting: seq<LeaseId>)
    requires Consistent(c) && lane in c.lanes && Lists(waiting, WaitingOn(DropActive(c, lane, now), lane))
    ensures Sound(c, MoveHead(Cleared(c, lane, now, waiting), lane, head, c.lanes[lane].fence + 1, now))
  {
    var mid := Cleared(c, lane, now, waiting);
    ClearedSound(c, lane, now, waiting);
    MoveHeadSound(mid, lane, head, c.lanes[lane].fence + 1, now);
    SoundTwice(c, mid, MoveHead(mid, lane, head, c.lanes[lane].fence + 1, now));
  }

  lemma InvalidateHeadSound(c: Core, lane: LaneId, head: nat, now: int, waiting: seq<LeaseId>)
    requires Consistent(c) && InvalidateHead(c, lane, head, now, waiting).Ok?
    ensures Sound(c, InvalidateHead(c, lane, head, now, waiting).value)
  {
    if c.lanes[lane].head == head { SoundSame(c); }
    else {
      assert InvalidateHead(c, lane, head, now, waiting).value
             == MoveHead(Cleared(c, lane, now, waiting), lane, head, c.lanes[lane].fence + 1, now);
      ClearedMoved(c, lane, head, now, waiting);
    }
  }

  lemma RegisterLaneSound(c: Core, lane: LaneId, owner: nat, ref: nat, head: nat, now: int, waiting: seq<LeaseId>)
    requires Consistent(c) && RegisterLane(c, lane, owner, ref, head, now, waiting).Ok?
    ensures Sound(c, RegisterLane(c, lane, owner, ref, head, now, waiting).value)
    ensures lane in RegisterLane(c, lane, owner, ref, head, now, waiting).value.lanes
  {
    var b := RegisterLane(c, lane, owner, ref, head, now, waiting).value;
    if lane !in c.lanes {
      NewLaneKeeps(c, b, lane);
      if Shown(c) { SameClaimsGuarded(c, b); }
      ClaimFreeSound(c, b);
    } else {
      InvalidateHeadSound(c, lane, head, now, waiting);
      assert LaneEvolves(c, b, lane);
    }
  }

  lemma {:induction false} StaleAllWaitingEnds(c: Core, rows: seq<LeaseId>, now: int, l: LeaseId)
    ensures l in StaleAllWaiting(c, rows, now).claims <==> l in c.claims
    ensures l in c.claims ==>
              && StaleAllWaiting(c, rows, now).claims[l].lane == c.claims[l].lane
              && StaleAllWaiting(c, rows, now).claims[l].status == (if l in rows then Stale else c.claims[l].status)
    decreases |rows|
  {
    if rows != [] { StaleAllWaitingEnds(StaleWaiting(c, rows[0], now), rows[1..], now, l); }
  }

  /** A moved head leaves nothing open on the lane. */
  lemma MovedCleared(c: Core, lane: LaneId, head: nat, now: int, waiting: seq<LeaseId>)
    requires Consistent(c) && lane in c.lanes && Lists(waiting, WaitingOn(DropActive(c, lane, now), lane))
    ensures LaneCleared(MoveHead(Cleared(c, lane, now, waiting), lane, head, c.lanes[lane].fence + 1, now), lane)
  {
    var a := DropActive(c, lane, now);
    var b := Cleared(c, lane, now, waiting);
    var d := MoveHead(b, lane, head, c.lanes[lane].fence + 1, now);
    DropActiveSound(c, lane, now);
    ClearedSound(c, lane, now, waiting);
    forall l | l in d.claims && d.claims[l].lane == lane ensures d.claims[l].status != Validating && !Live(d.claims[l]) {
      StaleAllWaitingEnds(a, waiting, now, l);
      assert ClaimOk(a, l) && (Live(b.claims[l]) ==> LaneBusy(b, lane));
    }
  }

  lemma HeadChanges(c: Core, lane: LaneId, head: nat, now: int, waiting: seq<LeaseId>)
    requires Consistent(c) && InvalidateHead(c, lane, head, now, waiting).Ok?
    ensures HeadTaken(c, InvalidateHead(c, lane, head, now, waiting).value, lane, head)
  {
    if c.lanes[lane].head != head {
      assert InvalidateHead(c, lane, head, now, waiting).value
             == MoveHead(Cleared(c, lane, now, waiting), lane, head, c.lanes[lane].fence + 1, now);
      MovedCleared(c, lane, head, now, waiting);
      ClearedSound(c, lane, now, waiting);
    }
  }

  lemma LaneTaken(c: Core, lane: LaneId, owner: nat, ref: nat, head: nat, now: int, waiting: seq<LeaseId>)
    requires Consistent(c) && RegisterLane(c, lane, owner, ref, head, now, waiting).Ok?
    ensures AcceptsLane(c, lane, owner, ref)
    ensures HeadTaken(c, RegisterLane(c, lane, owner, ref, head, now, waiting).value, lane, head)
  {
    if lane in c.lanes { HeadChanges(c, lane, head, now, waiting); }
    else {
      forall l | l in c.claims ensures c.claims[l].lane != lane { assert ClaimOk(c, l); }
      forall d | d in c.delegations ensures c.delegations[d].lane != lane { assert DelegationOk(c, d); }
    }
  }

  // ---- New work ----

  lemma AddReadySound(c: Core, lane: LaneId, d: DelegationId, row: DelegationRow)
    requires Consistent(c) && lane in c.lanes && row.lane == lane && row.state == Ready && d !in c.delegations
    requires !LaneBusy(c, lane)
    ensures Sound(c, AddReady(c, lane, d, row))
  {
    AddReadyKeeps(c, lane, d, row);
    if Shown(c) { SameClaimsGuarded(c, AddReady(c, lane, d, row)); }
    ClaimFreeSound(c, AddReady(c, lane, d, row));
  }

  lemma BindReadySound(c: Core, lane: LaneId, d: DelegationId, objective: nat, head: nat, evaluated: bool, now: int)
    requires Consistent(c) && BindReady(c, lane, d, objective, head, evaluated, now).Ok?
    ensures Sound(c, BindReady(c, lane, d, objective, head, evaluated, now).value)
  {
    if d in c.delegations { SoundSame(c); }
    else {
      var row := DelegationRow(lane, objective, head, Ready, evaluated);
      var mid := AddReady(c, lane, d, row);
      AddReadySound(c, lane, d, row);
      LogSound(mid, [Event(now, lane, SuccessorBound, Some(d), None, None, 0, NoDoc),
                     Event(now, lane, WorkReady, Some(d), None, None, 0, NoDoc)]);
      SoundTwice(c, mid, BindReady(c, lane, d, objective, head, evaluated, now).value);
    }
  }

  // ---- The worker and the dispatcher ----

  lemma BeatSound(c: Core, lease: LeaseId, token: int, expires: Option<int>, kind: EventKind, now: int)
    requires Consistent(c) && Beat(c, lease, token, expires, kind, now).Ok?
    requires kind == Heartbeat || kind == LeaseRenewed
    ensures Sound(c, Beat(c, lease, token, expires, kind, now).value)
  {
    assert ClaimOk(c, lease);
    TouchSound(c, Beat(c, lease, token, expires, kind, now).value, lease);
  }

  lemma MarkDispatchedSound(c: Core, d: DispatchId, run: RunId, now: int)
    requires Consistent(c) && MarkDispatched(c, d, run, now).Ok?
    ensures Sound(c, MarkDispatched(c, d, run, now).value)
  {
    var b := MarkDispatched(c, d, run, now).value;
    MarkDispatchedCalm(c, d, run, now);
    if c.outbox[d].run.None? {
      assert OutboxRowOk(c, d);
      DispatchHushed(c, b, d);
      if Shown(c) { SameClaimsGuarded(c, b); }
      if Evaluated(c) { HushedKeeps(c, b); }
      if Accounted(c) { MarkDispatchedAccounted(c, d, run, now); }
    }
  }

  lemma DispatchHushed(c: Core, b: Core, d: DispatchId)
    requires b.claims == c.claims && b.delegations == c.delegations && DullSince(c, b)
    ensures Hushed(c, b)
  { }

  lemma DispatchFailedSound(c: Core, d: DispatchId, error: nat, budget: int, failure: nat, now: int)
    requires Consistent(c) && DispatchFailed(c, d, error, budget, failure, now).Ok?
    ensures Sound(c, DispatchFailed(c, d, error, budget, failure, now).value.0)
  {
    var b := DispatchFailed(c, d, error, budget, failure, now).value.0;
    DispatchFailedCalm(c, d, error, budget, failure, now);
    if FindFailure(c.events, 0, failure) == |c.events| {
      DispatchHushed(c, b, d);
      if Shown(c) { SameClaimsGuarded(c, b); }
      if Evaluated(c) { HushedKeeps(c, b); }
      if Accounted(c) { DispatchFailedAccounted(c, d, error, budget, failure, now); }
    }
  }

  // ---- The evaluator ----

  lemma HandoffTouches(c: Core, lease: LeaseId, token: int, digest: nat, candidate: nat, timeout: int, now: int)
    requires Consistent(c) && AwaitEvaluation(c, lease, token, digest, candidate, timeout, now).Ok? && LeaseLive(c, lease)
    ensures var b := AwaitEvaluation(c, lease, token, digest, candidate, timeout, now).value;
            Touches(c, b, lease) && LaneFollows(c, b, lease) && FailureFree(c, b)
  { assert ClaimOk(c, lease); }

  lemma AwaitEvaluationSound(c: Core, lease: LeaseId, token: int, digest: nat, candidate: nat, timeout: int, now: int)
    requires Consistent(c) && AwaitEvaluation(c, lease, token, digest, candidate, timeout, now).Ok?
    ensures Sound(c, AwaitEvaluation(c, lease, token, digest, candidate, timeout, now).value)
  {
    var b := AwaitEvaluation(c, lease, token, digest, candidate, timeout, now).value;
    AwaitEvaluationCalm(c, lease, token, digest, candidate, timeout, now);
    if LeaseLive(c, lease) {
      HandoffTouches(c, lease, token, digest, candidate, timeout, now);
      if Evaluated(c) { AwaitEvaluationKeepsEvaluated(c, lease, token, digest, candidate, timeout, now); }
      if Accounted(c) { FailureFreeKeeps(c, b); }
      if Shown(c) { TouchShown(c, b, lease); }
      if Guarded(c) { TouchGuarded(c, b, lease); }
    }
  }

  /** A new verdict ends the wait of the candidate and touches neither the lane nor a failure count. */
  lemma VerdictTouches(c: Core, lease: LeaseId, token: int, v: Doc, now: int)
    requires Consistent(c) && EvaluatorVerdict(c, lease, token, v, now).Ok? && FindVerdict(c.events, 0, v.id) == |c.events|
    ensures var b := EvaluatorVerdict(c, lease, token, v, now).value;
            && Touches(c, b, lease) && LaneUntouched(c, b, lease) && FailureFree(c, b) && Open(c.claims[lease])
  { assert ClaimOk(c, lease); }

  lemma EvaluatorVerdictSound(c: Core, lease: LeaseId, token: int, v: Doc, now: int)
    requires Consistent(c) && EvaluatorVerdict(c, lease, token, v, now).Ok?
    ensures Sound(c, EvaluatorVerdict(c, lease, token, v, now).value)
  {
    var b := EvaluatorVerdict(c, lease, token, v, now).value;
    EvaluatorVerdictCalm(c, lease, token, v, now);
    if FindVerdict(c.events, 0, v.id) == |c.events| {
      VerdictTouches(c, lease, token, v, now);
      if Evaluated(c) { EvaluatorVerdictKeepsEvaluated(c, lease, token, v, now); }
      if Accounted(c) { FailureFreeKeeps(c, b); }
      if Shown(c) { TouchShown(c, b, lease); }
      if Guarded(c) { TouchGuarded(c, b, lease); }
    }
  }
}
