/** The transactions of the night scheduler (a01_night_scheduler.py): the queue, the claim guard and the slot budget. */
module NightSpec {
  import opened Wrappers
  import opened Tables
  import opened SupervisorSpec
  import opened CoordinationSpec

  datatype QueueState = Binding | Queued | InClaim | InEvaluation | Finished | Withdrawn | NeedsReconcile

  datatype QueueRow = QueueRow(handoff: Handoff, contract: Contract, state: QueueState)

  datatype Budget = Budget(limit: int, used: int)

  datatype Usage = Usage(delegation: DelegationId, lease: LeaseId)

  datatype Night = Night(
    queue: map<DelegationId, QueueRow>, budgets: map<nat, Budget>, usage: map<(nat, int), Usage>,
    auths: set<(DelegationId, nat)>)

  // ---- the slot budget ----

  function UsedSlots(n: Night, night: nat): set<(nat, int)> { set u | u in n.usage && u.0 == night }

  /** The uniqueness constraints on the usage table. */
  ghost predicate UsageFree(n: Night, night: nat, slot: int, u: Usage) {
    && (night, slot) !in n.usage
    && (forall x :: x in n.usage ==> n.usage[x].lease != u.lease)
    && (forall x :: x in n.usage && x.0 == night ==> n.usage[x].delegation != u.delegation)
  }

  function BudgetOf(n: Night, night: nat, limit: int): Budget {
    if night in n.budgets then n.budgets[night] else Budget(limit, 0)
  }

  /** The counter of the budget row disagrees with the usage rows. */
  predicate Miscounted(n: Night, night: nat, limit: int) {
    |UsedSlots(n, night)| != BudgetOf(n, night, limit).used
  }

  /** `_reserve_night_slot` */
  ghost function ReserveSlot(n: Night, night: nat, limit: int, u: Usage): Res<Night> {
    var b := BudgetOf(n, night, limit);
    if b.limit != limit || Miscounted(n, night, limit) || b.used >= b.limit then Err(Conflict)
    else if !UsageFree(n, night, b.used + 1, u) then Err(Conflict)
    else Ok(n.(usage := n.usage[(night, b.used + 1) := u],
               budgets := n.budgets[night := Budget(b.limit, b.used + 1)]))
  }

  // ---- _claim_authorized ----

  /** The trigger lets a claim on a queued delegation pass only with an authorization row. */
  predicate GuardPasses(n: Night, d: DelegationId, key: nat) {
    d in n.queue ==> (d, key) in n.auths
  }

  function Authorize(n: Night, d: DelegationId, key: nat): Night { n.(auths := n.auths + {(d, key)}) }

  function Deauthorize(n: Night, d: DelegationId, key: nat): Night { n.(auths := n.auths - {(d, key)}) }

  ghost function NightClaim(
    c: Core, k: Coord, n: Night, h: Handoff, contract: Contract, shiftOpen: bool, night: nat, limit: int,
    now: int, ttl: int, lease: LeaseId, dispatch: DispatchId): Res<(Core, Night)>
  {
    var q := RequestOf(h, now, ttl, lease, dispatch);
    if !ValidContract(h, contract) || !WindowOpen(h, now, shiftOpen) || !shiftOpen then Err(Conflict)
    else if ttl < 30 || ttl > 3600 || limit < 1 || limit > 64 then Err(BadValue)
    else if KeyUsed(c, h.key) then
      if SameClaim(c.claims[HolderOf(c, h.key)], q) && Live(c.claims[HolderOf(c, h.key)])
      then Ok((c, n)) else Err(Conflict)
    else if !Eligible(c, k, h) || !Grantable(c, q) then Err(Conflict)
    else
      var slot := ReserveSlot(n, night, limit, Usage(h.delegation, lease));
      if slot.Err? then Err(slot.error)
      else if (h.delegation, h.key) in slot.value.auths then Err(Conflict)
      else
        var open := Authorize(slot.value, h.delegation, h.key);
        if !GuardPasses(open, h.delegation, h.key) || !Fresh(c, q) then Err(Conflict)
        else Ok((Grant(c, q), Deauthorize(open, h.delegation, h.key)))
  }

  // ---- enqueue, reconcile ----

  /** The first transaction of `enqueue`; the second is `Bind`, the third `QueueBound`. */
  function EnqueueRow(n: Night, h: Handoff, contract: Contract): Res<Night> {
    if !ValidContract(h, contract) || !h.overnight then Err(Conflict)
    else if h.delegation in n.queue then
      if n.queue[h.delegation].handoff == h && n.queue[h.delegation].contract == contract then Ok(n) else Err(Conflict)
    else Ok(n.(queue := n.queue[h.delegation := QueueRow(h, contract, Binding)]))
  }

  function QueueBound(n: Night, d: DelegationId): Night {
    if d in n.queue && n.queue[d].state == Binding then n.(queue := n.queue[d := n.queue[d].(state := Queued)]) else n
  }

  /** The queue state that `reconcile` derives from the supervisor and coordination rows. */
  ghost function DerivedState(c: Core, k: Coord, d: DelegationId): QueueState {
    if d in k.tasks && k.tasks[d].cancelled then Withdrawn
    else if d !in c.delegations then NeedsReconcile
    else match c.delegations[d].state
      case Validating => InEvaluation
      case Completed => Finished
      case Blocked => Finished
      case Cancelled => Withdrawn
      case Stale => NeedsReconcile
      case Ready => if HasLive(c, d) then InClaim else Queued
      case _ => if HasLive(c, d) then InClaim else NeedsReconcile
  }

  ghost function ReconciledRow(c: Core, k: Coord, row: QueueRow, d: DelegationId): QueueRow {
    if row.state == Binding then row else row.(state := DerivedState(c, k, d))
  }

  ghost function Reconciled(c: Core, k: Coord, n: Night): Night {
    n.(queue := map d | d in n.queue :: ReconciledRow(c, k, n.queue[d], d))
  }

  /** The update that `tick` makes after a claim. */
  function QueueClaimed(n: Night, d: DelegationId): Night {
    if d in n.queue then n.(queue := n.queue[d := n.queue[d].(state := InClaim)]) else n
  }

  // ---- the stage barrier and the order of candidates ----

  predicate ActiveStage(s: QueueState) { s != Finished && s != Withdrawn }

  predicate OnStage(n: Night, d: DelegationId, lane: LaneId) {
    d in n.queue && ActiveStage(n.queue[d].state) && n.queue[d].handoff.lane == lane
  }

  /** Nobody on the lane who is still active has a lower execution order. */
  predicate Barrier(n: Night, lane: LaneId, order: int) {
    forall d :: d in n.queue && OnStage(n, d, lane) ==> order <= n.queue[d].handoff.order
  }

  predicate LaneEvaluates(n: Night, lane: LaneId) {
    exists d :: d in n.queue && n.queue[d].state == InEvaluation && n.queue[d].handoff.lane == lane
  }

  /** What `tick` may try to claim. */
  predicate Candidate(n: Night, d: DelegationId, now: int) {
    && d in n.queue && n.queue[d].state == Queued
    && var h := n.queue[d].handoff;
    && !LaneEvaluates(n, h.lane) && Barrier(n, h.lane, h.order)
    && (h.notBefore.Some? ==> now >= h.notBefore.value)
    && (h.notAfter.Some? ==> now < h.notAfter.value)
  }

  /** The sort key: priority downwards, then execution order, lane and delegation. */
  predicate Precedes(g: Handoff, h: Handoff) {
    if g.priority != h.priority then g.priority > h.priority
    else if g.order != h.order then g.order < h.order
    else if g.lane != h.lane then g.lane < h.lane
    else g.delegation <= h.delegation
  }
}
