/** What the night scheduler does, row by row: what a queue row says, when the next stage of a lane may start, what a claim of
    the scheduler needs and books, and what one pass tries. */
module NightEffects {
  import opened Wrappers
  import opened Tables
  import opened SupervisorSpec
  import opened SupervisorInvariants
  import opened SupervisorSafety
  import opened SupervisorEffects
  import opened CoordinationSpec
  import opened CoordinationSafety
  import opened CoordinationEffects
  import opened NightSpec
  import opened NightSafety

  // ---- enqueue ----

  /** Night work is queued with the handoff and contract that it came with, and again only as the same work. */
  predicate AcceptsQueue(n: Night, h: Handoff, contract: Contract) {
    && Admissible(h, contract) && h.overnight
    && (h.delegation in n.queue ==> n.queue[h.delegation].handoff == h && n.queue[h.delegation].contract == contract)
  }

  /** The queue holds the row, and nothing else is changed by that. */
  ghost predicate RowFiled(n: Night, m: Night, h: Handoff, contract: Contract, s: QueueState) {
    && m == n.(queue := m.queue) && m.queue.Keys == n.queue.Keys + {h.delegation}
    && (forall d :: d in n.queue && d != h.delegation ==> m.queue[d] == n.queue[d])
    && m.queue[h.delegation] == QueueRow(h, contract, s)
  }

  /** The row is in the queue and its binding is done. */
  predicate Filed(n: Night, d: DelegationId) { d in n.queue && n.queue[d].state != Binding }

  lemma EnqueueWrites(n: Night, h: Handoff, contract: Contract)
    ensures EnqueueRow(n, h, contract).Ok? <==> AcceptsQueue(n, h, contract)
    ensures AcceptsQueue(n, h, contract) ==>
              RowFiled(n, EnqueueRow(n, h, contract).value, h, contract,
                       if h.delegation in n.queue then n.queue[h.delegation].state else Binding)
  { }

  lemma FiledThenBound(n: Night, f: Night, h: Handoff, contract: Contract)
    requires RowFiled(n, f, h, contract, Binding)
    ensures RowFiled(n, QueueBound(f, h.delegation), h, contract, Queued)
  { }

  // ---- reconcile ----

  predicate CancelledWork(c: Core, k: Coord, d: DelegationId) {
    (d in k.tasks && k.tasks[d].cancelled) || (d in c.delegations && c.delegations[d].state == Cancelled)
  }

  predicate StateOf(c: Core, d: DelegationId, s: Status) { d in c.delegations && c.delegations[d].state == s }

  /** The state of a queue row says how its work stands. */
  predicate Shows(c: Core, k: Coord, d: DelegationId, s: QueueState) {
    && (s == Withdrawn <==> CancelledWork(c, k, d))
    && (s == Finished <==> !CancelledWork(c, k, d) && (StateOf(c, d, Completed) || StateOf(c, d, Blocked)))
    && (s == InEvaluation <==> !CancelledWork(c, k, d) && StateOf(c, d, Validating))
    && (s == InClaim <==> !CancelledWork(c, k, d) && StateOf(c, d, Claimed))
    && (s == Queued <==> !CancelledWork(c, k, d) && StateOf(c, d, Ready))
    && s != Binding
  }

  lemma ClaimedIsLive(c: Core, d: DelegationId)
    requires Consistent(c) && d in c.delegations
    ensures HasLive(c, d) <==> c.delegations[d].state == Claimed
  {
    assert DelegationOk(c, d);
    if c.delegations[d].state == Claimed {
      var l :| l in c.claims && c.claims[l].delegation == d;
      assert ClaimOk(c, l);
    }
    if HasLive(c, d) { assert ClaimOk(c, LiveOf(c, d)); }
  }

  lemma DerivedShows(c: Core, k: Coord, d: DelegationId)
    requires Consistent(c)
    ensures Shows(c, k, d, DerivedState(c, k, d))
  { if d in c.delegations { ClaimedIsLive(c, d); } }

  /** Every bound row shows how its work stands; a row whose binding is open stays as it is, and so does all else. */
  ghost predicate QueueShows(c: Core, k: Coord, n: Night, m: Night) {
    && m == n.(queue := m.queue) && m.queue.Keys == n.queue.Keys
    && forall d {:trigger m.queue[d]} :: d in n.queue ==>
         && m.queue[d].handoff == n.queue[d].handoff && m.queue[d].contract == n.queue[d].contract
         && (n.queue[d].state == Binding ==> m.queue[d].state == Binding)
         && (n.queue[d].state != Binding ==> Shows(c, k, d, m.queue[d].state))
  }

  lemma ReconcileWrites(c: Core, k: Coord, n: Night)
    requires Consistent(c)
    ensures QueueShows(c, k, n, Reconciled(c, k, n))
  {
    var m := Reconciled(c, k, n);
    forall d | d in n.queue
      ensures && m.queue[d].handoff == n.queue[d].handoff && m.queue[d].contract == n.queue[d].contract
              && (n.queue[d].state == Binding ==> m.queue[d].state == Binding)
              && (n.queue[d].state != Binding ==> Shows(c, k, d, m.queue[d].state))
    { DerivedShows(c, k, d); }
  }

  // ---- The stage barrier ----

  /** The queued work is behind us: completed, blocked or cancelled. A row whose binding is open is not. */
  predicate Behind(c: Core, k: Coord, n: Night, d: DelegationId)
    requires d in n.queue
  {
    n.queue[d].state != Binding && (CancelledWork(c, k, d) || StateOf(c, d, Completed) || StateOf(c, d, Blocked))
  }

  /** The work waits for its evaluator. */
  predicate AtEvaluator(c: Core, k: Coord, n: Night, d: DelegationId)
    requires d in n.queue
  {
    n.queue[d].state != Binding && !CancelledWork(c, k, d) && StateOf(c, d, Validating)
  }

  /** The work may be tried now: it is bound, READY and not cancelled, inside its window, all queued work of the lane with a
      lower execution order is behind it, and nothing on the lane is with an evaluator. */
  ghost predicate Due(c: Core, k: Coord, n: Night, d: DelegationId, now: int) {
    && d in n.queue && n.queue[d].state != Binding && StateOf(c, d, Ready) && !CancelledWork(c, k, d)
    && var h := n.queue[d].handoff;
    && (h.notBefore.None? || h.notBefore.value <= now) && (h.notAfter.None? || now < h.notAfter.value)
    && forall e {:trigger n.queue[e]} :: e in n.queue && n.queue[e].handoff.lane == h.lane ==>
         (n.queue[e].handoff.order < h.order ==> Behind(c, k, n, e)) && !AtEvaluator(c, k, n, e)
  }

  /** The candidates of a reconciled queue are exactly the work that is due: a stage starts when, and only when, all work of
      the stages before it is behind us. */
  lemma StageOpensExactly(c: Core, k: Coord, n: Night, d: DelegationId, now: int)
    requires Consistent(c)
    ensures Candidate(Reconciled(c, k, n), d, now) <==> Due(c, k, n, d, now)
  {
    var m := Reconciled(c, k, n);
    ReconcileWrites(c, k, n);
    forall e | e in n.queue
      ensures ActiveStage(m.queue[e].state) <==> !Behind(c, k, n, e)
      ensures m.queue[e].state == InEvaluation <==> AtEvaluator(c, k, n, e)
    { assert m.queue[e].handoff == n.queue[e].handoff; }
    if Candidate(m, d, now) { CandidateDue(c, k, n, m, d, now); }
    if Due(c, k, n, d, now) { DueCandidate(c, k, n, m, d, now); }
  }

  lemma CandidateDue(c: Core, k: Coord, n: Night, m: Night, d: DelegationId, now: int)
    requires Candidate(m, d, now) && QueueShows(c, k, n, m)
    requires forall e :: e in n.queue ==> (ActiveStage(m.queue[e].state) <==> !Behind(c, k, n, e))
    requires forall e :: e in n.queue ==> (m.queue[e].state == InEvaluation <==> AtEvaluator(c, k, n, e))
    ensures Due(c, k, n, d, now)
  {
    assert m.queue[d].state == Queued;
    var h := n.queue[d].handoff;
    forall e | e in n.queue && n.queue[e].handoff.lane == h.lane
      ensures (n.queue[e].handoff.order < h.order ==> Behind(c, k, n, e)) && !AtEvaluator(c, k, n, e)
    {
      assert m.queue[e].handoff == n.queue[e].handoff;
      if !Behind(c, k, n, e) { assert OnStage(m, e, h.lane); }
    }
  }

  lemma DueCandidate(c: Core, k: Coord, n: Night, m: Night, d: DelegationId, now: int)
    requires Due(c, k, n, d, now) && QueueShows(c, k, n, m)
    requires forall e :: e in n.queue ==> (ActiveStage(m.queue[e].state) <==> !Behind(c, k, n, e))
    requires forall e :: e in n.queue ==> (m.queue[e].state == InEvaluation <==> AtEvaluator(c, k, n, e))
    ensures Candidate(m, d, now)
  {
    var h := m.queue[d].handoff;
    assert h == n.queue[d].handoff;
    forall e | e in m.queue && OnStage(m, e, h.lane) ensures h.order <= m.queue[e].handoff.order {
      assert m.queue[e].handoff == n.queue[e].handoff && n.queue[e].handoff.lane == h.lane;
    }
    forall e | e in m.queue && m.queue[e].handoff.lane == h.lane ensures m.queue[e].state != InEvaluation {
      assert m.queue[e].handoff == n.queue[e].handoff && n.queue[e].handoff.lane == h.lane;
    }
  }

  // ---- The claim of the scheduler ----

  /** The night has a slot left, under the limit that it was opened with. */
  predicate SlotLeft(n: Night, night: nat, limit: int) {
    night in n.budgets ==> n.budgets[night].limit == limit && n.budgets[night].used < limit
  }

  /** The scheduler may claim inside shift and window what the plan lets start and the store can lease, with a slot left; and
      again what it claimed and still has. */
  ghost predicate AcceptsNight(
    c: Core, k: Coord, n: Night, h: Handoff, contract: Contract, shiftOpen: bool, night: nat, limit: int, now: int, ttl: int,
    lease: LeaseId, dispatch: DispatchId)
  {
    && Admissible(h, contract) && InWindow(h, now, shiftOpen) && shiftOpen && 30 <= ttl <= 3600 && RepeatsClaim(c, h)
    && ((forall l :: !HoldsKey(c, l, h.key)) ==>
          && MayStart(c, k, h) && Leasable(c, h.lane, h.delegation, h.objective, h.head, lease, dispatch)
          && SlotLeft(n, night, limit))
  }

  lemma SlotExactly(c: Core, n: Night, q: Request, night: nat, limit: int)
    requires Consistent(c) && Budgeted(c, n) && Grantable(c, q) && Fresh(c, q) && 1 <= limit <= 64
    ensures ReserveSlot(n, night, limit, Usage(q.delegation, q.lease)).Ok? <==> SlotLeft(n, night, limit)
    ensures ReserveSlot(n, night, limit, Usage(q.delegation, q.lease)).Ok? ==>
              ReserveSlot(n, night, limit, Usage(q.delegation, q.lease)).value.auths == n.auths
  { ReserveExactly(c, n, q, night, limit); }

  lemma NightAccepted(
    c: Core, k: Coord, n: Night, h: Handoff, contract: Contract, shiftOpen: bool, night: nat, limit: int, now: int, ttl: int,
    lease: LeaseId, dispatch: DispatchId)
    requires Consistent(c) && KeysDiffer(c) && Budgeted(c, n) && 1 <= limit <= 64
    ensures NightClaim(c, k, n, h, contract, shiftOpen, night, limit, now, ttl, lease, dispatch).Ok?
            <==> AcceptsNight(c, k, n, h, contract, shiftOpen, night, limit, now, ttl, lease, dispatch)
  {
    MayStartIs(c, k, h);
    KeyHeld(c, h.key);
    var q := RequestOf(h, now, ttl, lease, dispatch);
    if Grantable(c, q) && Fresh(c, q) { SlotExactly(c, n, q, night, limit); }
  }

  /** The next slot of the night is booked for the lease, and nothing else is. */
  ghost predicate SlotBooked(n: Night, m: Night, night: nat, limit: int, d: DelegationId, lease: LeaseId) {
    var used := if night in n.budgets then n.budgets[night].used else 0;
    && m.queue == n.queue && m.auths == n.auths
    && m.budgets.Keys == n.budgets.Keys + {night} && m.budgets[night] == Budget(limit, used + 1)
    && (forall x :: x in n.budgets && x != night ==> m.budgets[x] == n.budgets[x])
    && (night, used + 1) !in n.usage && m.usage.Keys == n.usage.Keys + {(night, used + 1)}
    && m.usage[(night, used + 1)] == Usage(d, lease) && (forall u :: u in n.usage ==> m.usage[u] == n.usage[u])
  }

  lemma SlotWrites(n: Night, night: nat, limit: int, d: DelegationId, lease: LeaseId)
    requires ReserveSlot(n, night, limit, Usage(d, lease)).Ok?
    ensures SlotBooked(n, ReserveSlot(n, night, limit, Usage(d, lease)).value, night, limit, d, lease)
  { }

  /** Work with a new key is leased and one slot booked; a repetition changes nothing. */
  ghost predicate NightGrants(
    c: Core, n: Night, b: Core, m: Night, h: Handoff, night: nat, limit: int, now: int, ttl: int, lease: LeaseId,
    dispatch: DispatchId)
  {
    if KeyUsed(c, h.key) then b == c && m == n
    else HandoffGranted(c, b, h, now, ttl, lease, dispatch) && SlotBooked(n, m, night, limit, h.delegation, lease)
  }

  lemma NightWrites(
    c: Core, k: Coord, n: Night, h: Handoff, contract: Contract, shiftOpen: bool, night: nat, limit: int, now: int, ttl: int,
    lease: LeaseId, dispatch: DispatchId)
    requires Budgeted(c, n)
    requires NightClaim(c, k, n, h, contract, shiftOpen, night, limit, now, ttl, lease, dispatch).Ok?
    ensures var r := NightClaim(c, k, n, h, contract, shiftOpen, night, limit, now, ttl, lease, dispatch).value;
            NightGrants(c, n, r.0, r.1, h, night, limit, now, ttl, lease, dispatch)
  {
    if !KeyUsed(c, h.key) {
      NightClaimOutcome(c, k, n, h, contract, shiftOpen, night, limit, now, ttl, lease, dispatch);
      ClaimWrites(c, h, now, ttl, lease, dispatch);
      SlotWrites(n, night, limit, h.delegation, lease);
    }
  }

  // ---- tick ----

  /** One try of a pass: READY work that may be claimed is leased, costs one slot and is marked; otherwise nothing changes. */
  ghost predicate Tried(
    c: Core, k: Coord, n: Night, b: Core, m: Night, d: DelegationId, night: nat, limit: int, now: int, ttl: int,
    lease: LeaseId, dispatch: DispatchId)
  {
    && d in n.queue
    && var h := n.queue[d].handoff;
    && if AcceptsNight(c, k, n, h, n.queue[d].contract, true, night, limit, now, ttl, lease, dispatch) then
         && HandoffGranted(c, b, h, now, ttl, lease, dispatch) && SlotBooked(n, m.(queue := n.queue), night, limit, d, lease)
         && m.queue == n.queue[d := n.queue[d].(state := InClaim)]
       else b == c && m == n
  }

  /** The tables between the tries of a pass. */
  type Trail = seq<(Core, Night)>

  /** The try at position `j` succeeded. */
  predicate Succeeded(t: Trail, j: nat)
    requires j + 1 < |t|
  {
    t[j + 1] != t[j]
  }

  ghost predicate TriedAt(
    k: Coord, rows: seq<DelegationId>, t: Trail, j: nat, ids: nat -> (LeaseId, DispatchId), night: nat, limit: int, now: int, ttl: int)
    requires j + 1 < |t| && j < |rows|
  {
    Tried(t[j].0, k, t[j].1, t[j + 1].0, t[j + 1].1, rows[j], night, limit, now, ttl, ids(j).0, ids(j).1)
  }

  /** A pass tries candidates in order, each on the tables that the one before left: the answer lists the new leases, and the
      rest of what was tried is blocked. */
  ghost predicate Passed(
    k: Coord, rows: seq<DelegationId>, t: Trail, ids: nat -> (LeaseId, DispatchId), night: nat, limit: int, now: int, ttl: int,
    claims: seq<LeaseId>, blocked: seq<DelegationId>)
  {
    && 0 < |t| <= |rows| + 1 && |claims| + |blocked| == |t| - 1
    && (forall j: nat {:trigger TriedAt(k, rows, t, j, ids, night, limit, now, ttl)} :: j + 1 < |t| ==>
          TriedAt(k, rows, t, j, ids, night, limit, now, ttl))
    && (forall j: nat {:trigger Succeeded(t, j)} :: j + 1 < |t| ==>
          if Succeeded(t, j) then ids(j).0 in claims else rows[j] in blocked)
  }

  lemma PassGoesOn(
    k: Coord, rows: seq<DelegationId>, t: Trail, ids: nat -> (LeaseId, DispatchId), night: nat, limit: int, now: int, ttl: int,
    claims: seq<LeaseId>, blocked: seq<DelegationId>, b: Core, m: Night, ok: bool)
    requires Passed(k, rows, t, ids, night, limit, now, ttl, claims, blocked) && |t| <= |rows|
    requires Tried(t[|t| - 1].0, k, t[|t| - 1].1, b, m, rows[|t| - 1], night, limit, now, ttl, ids(|t| - 1).0, ids(|t| - 1).1)
    requires ok == ((b, m) != t[|t| - 1])
    ensures Passed(k, rows, t + [(b, m)], ids, night, limit, now, ttl, if ok then claims + [ids(|t| - 1).0] else claims,
                   if ok then blocked else blocked + [rows[|t| - 1]])
  {
    var u := t + [(b, m)];
    forall j: nat | j + 1 < |u| ensures TriedAt(k, rows, u, j, ids, night, limit, now, ttl) {
      if j + 1 < |t| { assert TriedAt(k, rows, t, j, ids, night, limit, now, ttl); }
    }
    forall j: nat | j + 1 < |u|
      ensures if Succeeded(u, j) then ids(j).0 in (if ok then claims + [ids(|t| - 1).0] else claims)
              else rows[j] in (if ok then blocked else blocked + [rows[|t| - 1]])
    { if j + 1 < |t| { assert Succeeded(t, j) == Succeeded(u, j); } }
  }
}
