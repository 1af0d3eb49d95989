/** The night scheduler (a01_night_scheduler.py): queue, slot budget and claim guard beside the coordination adapter. */
module NightScheduler {
  import opened Wrappers
  import opened Tables
  import opened Queries
  import opened SupervisorSpec
  import opened SupervisorInvariants
  import opened SupervisorSafety
  import opened StoreSteps
  import opened SupervisorStore
  import opened CoordinationSpec
  import opened CoordinationSafety
  import opened CoordinationAdapter
  import opened NightSpec
  import opened NightSafety
  import opened SupervisorEffects
  import opened CoordinationEffects
  import opened NightEffects

  /** The store has one claim more, a live one on `d`, and other claims and delegations are as before. */
  ghost predicate Gained(a: Core, b: Core, l: LeaseId, d: DelegationId) {
    && l !in a.claims && b.claims.Keys == a.claims.Keys + {l} && Live(b.claims[l]) && b.claims[l].delegation == d
    && (forall x :: x in a.claims ==> b.claims[x] == a.claims[x])
    && (forall x :: x in a.delegations && x != d ==> x in b.delegations && b.delegations[x] == a.delegations[x])
  }

  lemma GrantGains(c: Core, q: Request)
    requires q.lane in c.lanes && Fresh(c, q)
    ensures Gained(c, Grant(c, q), q.lease, q.delegation)
  { }

  /** A queue row holds an admitted pair for the delegation that it is filed under. */
  predicate Admitted(n: Night, d: DelegationId)
    requires d in n.queue
  {
    Admissible(n.queue[d].handoff, n.queue[d].contract) && n.queue[d].handoff.delegation == d
  }

  /** What a claim of eligible work does under its authorization row; an error rolls slot and authorization back. */
  ghost function Booking(c: Core, n: Night, h: Handoff, night: nat, limit: int, q: Request): Res<(Core, Night)>
    requires q.lane in c.lanes
  {
    var slot := ReserveSlot(n, night, limit, Usage(h.delegation, q.lease));
    if slot.Err? then Err(slot.error)
    else if (h.delegation, h.key) in slot.value.auths then Err(Conflict)
    else
      var open := Authorize(slot.value, h.delegation, h.key);
      if !GuardPasses(open, h.delegation, h.key) || !Fresh(c, q) then Err(Conflict)
      else Ok((Grant(c, q), Deauthorize(open, h.delegation, h.key)))
  }

  /** A claim of eligible work with a new key is a booking. */
  lemma EligibleBooks(
    c: Core, p: Coord, n: Night, h: Handoff, k: Contract, shiftOpen: bool, night: nat, limit: int, now: int, ttl: int,
    lease: LeaseId, dispatch: DispatchId)
    requires ValidContract(h, k) && WindowOpen(h, now, shiftOpen) && shiftOpen && 30 <= ttl <= 3600 && 1 <= limit <= 64
    requires !KeyUsed(c, h.key) && Eligible(c, p, h) && Grantable(c, RequestOf(h, now, ttl, lease, dispatch))
    ensures NightClaim(c, p, n, h, k, shiftOpen, night, limit, now, ttl, lease, dispatch)
            == Booking(c, n, h, night, limit, RequestOf(h, now, ttl, lease, dispatch))
  { }

  lemma BookedKeeps(
    c: Core, p: Coord, n: Night, h: Handoff, k: Contract, shiftOpen: bool, night: nat, limit: int, now: int, ttl: int,
    lease: LeaseId, dispatch: DispatchId)
    requires Consistent(c) && KeysDiffer(c) && Planned(c, p) && Budgeted(c, n) && !KeyUsed(c, h.key)
    requires NightClaim(c, p, n, h, k, shiftOpen, night, limit, now, ttl, lease, dispatch).Ok?
    ensures var r := NightClaim(c, p, n, h, k, shiftOpen, night, limit, now, ttl, lease, dispatch).value;
            && r.0 == Grant(c, RequestOf(h, now, ttl, lease, dispatch))
            && Consistent(r.0) && KeysDiffer(r.0) && Planned(r.0, p) && Budgeted(r.0, r.1) && r.1.queue == n.queue
            && BudgetOf(r.1, night, limit).used == BudgetOf(n, night, limit).used + 1
  {
    var q := RequestOf(h, now, ttl, lease, dispatch);
    NightClaimOutcome(c, p, n, h, k, shiftOpen, night, limit, now, ttl, lease, dispatch);
    GrantKeeps(c, q);
    GrantedKeysDiffer(c, q);
    GrantPlanned(c, p, q);
    ReserveKeeps(c, n, q, night, limit, ReserveSlot(n, night, limit, Usage(h.delegation, lease)).value);
  }

  /** A READY delegation has no claim yet, so a claim on it is a new one. */
  lemma ReadyIsNew(
    c: Core, p: Coord, n: Night, h: Handoff, k: Contract, shiftOpen: bool, night: nat, limit: int, now: int, ttl: int,
    lease: LeaseId, dispatch: DispatchId)
    requires Consistent(c) && KeysDiffer(c) && Planned(c, p) && Budgeted(c, n)
    requires h.delegation in c.delegations && c.delegations[h.delegation].state == Ready
    requires NightClaim(c, p, n, h, k, shiftOpen, night, limit, now, ttl, lease, dispatch).Ok?
    ensures !KeyUsed(c, h.key) && 30 <= ttl <= 3600
    ensures var r := NightClaim(c, p, n, h, k, shiftOpen, night, limit, now, ttl, lease, dispatch).value;
            && r.0 == Grant(c, RequestOf(h, now, ttl, lease, dispatch)) && r.1.queue == n.queue
            && Grantable(c, RequestOf(h, now, ttl, lease, dispatch)) && Fresh(c, RequestOf(h, now, ttl, lease, dispatch))
            && BudgetOf(r.1, night, limit).used == BudgetOf(n, night, limit).used + 1
  {
    assert KeyUsed(c, h.key) ==> HasClaimRow(c, h.delegation) by {
      if KeyUsed(c, h.key) { assert c.claims[HolderOf(c, h.key)].delegation == h.delegation; }
    }
    ReadyHasNoClaim(c, h.delegation);
    BookedKeeps(c, p, n, h, k, shiftOpen, night, limit, now, ttl, lease, dispatch);
    NightClaimOutcome(c, p, n, h, k, shiftOpen, night, limit, now, ttl, lease, dispatch);
  }

  /** What a claim of a READY delegation answers. */
  lemma TriedOutcome(
    c: Core, p: Coord, n: Night, h: Handoff, k: Contract, shiftOpen: bool, night: nat, limit: int, now: int, ttl: int,
    lease: LeaseId, dispatch: DispatchId, r: Res<LeaseId>, b: Core, m: Night)
    requires Consistent(c) && KeysDiffer(c) && Planned(c, p) && Budgeted(c, n) && 1 <= limit <= 64
    requires h.delegation in c.delegations && c.delegations[h.delegation].state == Ready
    requires var spec := NightClaim(c, p, n, h, k, shiftOpen, night, limit, now, ttl, lease, dispatch);
             if spec.Ok? then r.Ok? && b == spec.value.0 && m == spec.value.1 && (!KeyUsed(c, h.key) ==> r.value == lease)
             else r == Err(spec.error) && b == c && m == n
    ensures Admissible(h, k) && InWindow(h, now, shiftOpen) && shiftOpen ==>
              (r.Err? && r.error == BadValue <==> ttl < 30 || ttl > 3600)
    ensures r.Ok? ==>
              && Gained(c, b, r.value, h.delegation) && 30 <= ttl <= 3600 && m.queue == n.queue && r.value == lease
              && BudgetOf(m, night, limit).used == BudgetOf(n, night, limit).used + 1
              && HandoffGranted(c, b, h, now, ttl, lease, dispatch) && SlotBooked(n, m, night, limit, h.delegation, lease)
  {
    if r.Ok? {
      ReadyIsNew(c, p, n, h, k, shiftOpen, night, limit, now, ttl, lease, dispatch);
      NightWrites(c, p, n, h, k, shiftOpen, night, limit, now, ttl, lease, dispatch);
      GrantGains(c, RequestOf(h, now, ttl, lease, dispatch));
    }
  }

  ghost predicate AllReady(c: Core, rows: seq<DelegationId>) {
    forall d :: d in rows ==> d in c.delegations && c.delegations[d].state == Ready
  }

  /** The rows are all that is due, each once, by priority downwards, then execution order, lane and id. */
  ghost predicate DueInOrder(c: Core, p: Coord, n: Night, rows: seq<DelegationId>, now: int) {
    && Distinct(rows) && (forall d :: d in rows ==> d in n.queue)
    && (forall d {:trigger Due(c, p, n, d, now)} :: d in rows <==> Due(c, p, n, d, now))
    && forall i, j :: 0 <= i < j < |rows| ==> Before(n.queue[rows[i]].handoff, n.queue[rows[j]].handoff)
  }

  predicate Before(g: Handoff, h: Handoff) {
    || g.priority > h.priority
    || (g.priority == h.priority
        && (g.order < h.order
            || (g.order == h.order && (g.lane < h.lane || (g.lane == h.lane && g.delegation <= h.delegation)))))
  }

  lemma CandidatesAreDue(c: Core, p: Coord, n: Night, m: Night, rows: seq<DelegationId>, now: int)
    requires Consistent(c) && m == Reconciled(c, p, n) && Distinct(rows) && forall d :: d in rows <==> Candidate(m, d, now)
    requires forall d :: d in rows ==> d in m.queue
    requires forall i, j :: 0 <= i < j < |rows| ==> Precedes(m.queue[rows[i]].handoff, m.queue[rows[j]].handoff)
    ensures AllReady(c, rows) && DueInOrder(c, p, n, rows, now)
  {
    forall d: nat ensures d in rows <==> Due(c, p, n, d, now) { StageOpensExactly(c, p, n, d, now); }
    forall d | d in n.queue ensures m.queue[d].handoff == n.queue[d].handoff { }
  }

  /** The new claims are live claims on candidates. */
  ghost predicate ClaimedFrom(a: Core, b: Core, claims: seq<LeaseId>, n: Night, now: int) {
    && (forall l :: l in b.claims <==> l in a.claims || l in claims)
    && forall l :: l in claims ==> l !in a.claims && l in b.claims && Live(b.claims[l]) && Candidate(n, b.claims[l].delegation, now)
  }

  /** How far the loop over the candidates has come: `rest` is still to be tried. */
  ghost predicate Claiming(
    a: Core, n: Night, b: Core, m: Night, claims: seq<LeaseId>, rest: seq<DelegationId>, now: int, night: nat, limit: int)
  {
    && m.queue.Keys == n.queue.Keys && (forall d :: d in rest ==> d in n.queue && m.queue[d] == n.queue[d])
    && AllReady(b, rest) && ClaimedFrom(a, b, claims, n, now)
    && BudgetOf(m, night, limit).used == BudgetOf(n, night, limit).used + |claims|
  }

  lemma OneMore(
    a: Core, n: Night, b: Core, m: Night, claims: seq<LeaseId>, rest: seq<DelegationId>, l: LeaseId, c: Core, o: Night,
    now: int, night: nat, limit: int)
    requires Claiming(a, n, b, m, claims, rest, now, night, limit)
    requires rest != [] && rest[0] !in rest[1..] && Candidate(n, rest[0], now) && Gained(b, c, l, rest[0])
    requires rest[0] in m.queue && o.queue == m.queue[rest[0] := m.queue[rest[0]].(state := InClaim)]
    requires BudgetOf(o, night, limit).used == BudgetOf(m, night, limit).used + 1
    ensures Claiming(a, n, c, o, claims + [l], rest[1..], now, night, limit)
  { }

  /** The loop over the candidates after `i` tries. */
  ghost predicate Walked(
    k: Coord, a: Core, n: Night, b: Core, m: Night, rows: seq<DelegationId>, i: nat, t: Trail,
    ids: nat -> (LeaseId, DispatchId), night: nat, limit: int, now: int, ttl: int, claims: seq<LeaseId>, blocked: seq<DelegationId>)
  {
    && i <= |rows| && |t| == i + 1 && t[0] == (a, n) && t[i] == (b, m)
    && Passed(k, rows, t, ids, night, limit, now, ttl, claims, blocked)
    && Claiming(a, n, b, m, claims, rows[i..], now, night, limit)
  }

  lemma NextTry(b: Core, n: Night, m: Night, rows: seq<DelegationId>, i: nat, now: int)
    requires i < |rows| && AllReady(b, rows[i..]) && Candidate(n, rows[i], now)
    requires forall d :: d in rows[i..] ==> d in n.queue && d in m.queue && m.queue[d] == n.queue[d]
    ensures rows[i] in m.queue && rows[i] in b.delegations && b.delegations[rows[i]].state == Ready
    ensures InWindow(m.queue[rows[i]].handoff, now, true)
  { assert rows[i] == rows[i..][0]; }

  lemma WalksOn(
    k: Coord, a: Core, n: Night, b: Core, m: Night, rows: seq<DelegationId>, i: nat, t: Trail,
    ids: nat -> (LeaseId, DispatchId), night: nat, limit: int, now: int, ttl: int, claims: seq<LeaseId>, blocked: seq<DelegationId>,
    c: Core, o: Night, r: Res<LeaseId>)
    requires Walked(k, a, n, b, m, rows, i, t, ids, night, limit, now, ttl, claims, blocked) && i < |rows| && Distinct(rows)
    requires Candidate(n, rows[i], now) && Tried(b, k, m, c, o, rows[i], night, limit, now, ttl, ids(i).0, ids(i).1)
    requires r.Err? ==> c == b && o == m
    requires r.Ok? ==>
               && r.value == ids(i).0 && Gained(b, c, r.value, rows[i]) && rows[i] in m.queue
               && o.queue == m.queue[rows[i] := m.queue[rows[i]].(state := InClaim)]
               && BudgetOf(o, night, limit).used == BudgetOf(m, night, limit).used + 1
    ensures Walked(k, a, n, c, o, rows, i + 1, t + [(c, o)], ids, night, limit, now, ttl,
                   if r.Ok? then claims + [r.value] else claims, if r.Ok? then blocked else blocked + [rows[i]])
  {
    assert rows[i..][0] == rows[i] && rows[i..][1..] == rows[i + 1..];
    PassGoesOn(k, rows, t, ids, night, limit, now, ttl, claims, blocked, c, o, r.Ok?);
    if r.Ok? { OneMore(a, n, b, m, claims, rows[i..], r.value, c, o, now, night, limit); }
    else { forall d | d in rows[i + 1..] ensures d in rows[i..] { } }
  }

  class NightScheduler {
    const store: SupervisorStore
    const coordination: CoordinationAdapter
    const maxSlots: int
    var queue: map<DelegationId, QueueRow>
    var budgets: map<nat, Budget>
    var usage: map<(nat, int), Usage>
    var auths: set<(DelegationId, nat)>

    function Rows(): Night reads this { Night(queue, budgets, usage, auths) }

    ghost predicate Valid() reads this, store, coordination {
      && coordination.store == store && coordination.Valid() && Budgeted(store.Tables(), Rows()) && 1 <= maxSlots <= 64
      && forall d :: d in queue ==> Admitted(Rows(), d)
    }

    constructor (c: CoordinationAdapter, slots: int)
      requires c.Valid() && 1 <= slots <= 64
      ensures Valid() && coordination == c && maxSlots == slots && Rows() == Night(map[], map[], map[], {})
    {
      store, coordination, maxSlots := c.store, c, slots;
      queue, budgets, usage, auths := map[], map[], map[], {};
    }

    method Rollback(n: Night)
      modifies this
      ensures Rows() == n
    { queue, budgets, usage, auths := n.queue, n.budgets, n.usage, n.auths; }

    // ---- the slot budget ----

    /** The uniqueness constraints that the INSERT has to meet. */
    method Collides(night: nat, slot: int, u: Usage) returns (bad: bool)
      ensures bad == !UsageFree(Rows(), night, slot, u)
    {
      var same := set x | x in usage && (usage[x].lease == u.lease || (x.0 == night && usage[x].delegation == u.delegation));
      bad := (night, slot) in usage || same != {};
      if same == {} {
        forall x | x in Rows().usage
          ensures usage[x].lease != u.lease && (x.0 == night ==> usage[x].delegation != u.delegation)
        { assert x !in same; }
      } else {
        var x :| x in same;
        assert x in Rows().usage;
      }
    }

    /** `_reserve_night_slot`; an error leaves the rollback to the caller. */
    method ReserveNightSlot(night: nat, u: Usage) returns (r: Res<()>)
      modifies this
      ensures var spec := ReserveSlot(old(Rows()), night, maxSlots, u);
              r.Ok? == spec.Ok? && (if spec.Ok? then Rows() == spec.value else r == Err(spec.error))
      ensures r.Ok? ==> SlotBooked(old(Rows()), Rows(), night, maxSlots, u.delegation, u.lease)
    {
      ghost var before := Rows();
      var b := Budget(maxSlots, 0);
      if night !in budgets {
        budgets := budgets[night := b];
      } else {
        b := budgets[night];
        if b.limit != maxSlots { return Err(Conflict); }
      }
      var counted := |UsedSlots(Rows(), night)|;
      assert UsedSlots(Rows(), night) == UsedSlots(before, night);
      if counted != b.used { return Err(Conflict); }
      if b.used >= b.limit { return Err(Conflict); }
      var slot := b.used + 1;
      var bad := Collides(night, slot, u);
      if bad { return Err(Conflict); }
      usage := usage[(night, slot) := u];
      budgets := budgets[night := Budget(b.limit, slot)];
      r := Ok(());
    }

    // ---- _claim_authorized ----

    method BookAndClaim(h: Handoff, night: nat, q: Request) returns (r: Res<LeaseId>)
      requires q.lane in store.lanes
      modifies this, store
      ensures var spec := Booking(old(store.Tables()), old(Rows()), h, night, maxSlots, q);
              if spec.Ok? then r == Ok(q.lease) && store.Tables() == spec.value.0 && Rows() == spec.value.1
              else r == Err(spec.error) && store.Tables() == old(store.Tables()) && Rows() == old(Rows())
    {
      var saved := Rows();
      var slot := ReserveNightSlot(night, Usage(h.delegation, q.lease));
      if slot.Err? {
        Rollback(saved);
        return Err(slot.error);
      }
      var authorized := (h.delegation, h.key) in auths;
      auths := auths + {(h.delegation, h.key)};
      if authorized || !GuardPasses(Rows(), h.delegation, h.key) || q.lease in store.claims || q.dispatch in store.outbox {
        Rollback(saved);
        return Err(Conflict);
      }
      store.InsertClaim(q);
      auths := auths - {(h.delegation, h.key)};
      r := Ok(q.lease);
    }

    method ClaimAuthorized(
      h: Handoff, contract: Contract, shiftOpen: bool, night: nat, now: int, ttl: int, lease: LeaseId, dispatch: DispatchId)
      returns (r: Res<LeaseId>)
      requires Valid()
      modifies this, store
      ensures Valid() && coordination.Plan() == old(coordination.Plan())
      ensures var spec := NightClaim(old(store.Tables()), old(coordination.Plan()), old(Rows()),
                                     h, contract, shiftOpen, night, maxSlots, now, ttl, lease, dispatch);
              if spec.Ok? then
                r.Ok? && store.Tables() == spec.value.0 && Rows() == spec.value.1 && r.value in store.claims
                && Live(store.claims[r.value]) && store.claims[r.value].delegation == h.delegation
                && (!KeyUsed(old(store.Tables()), h.key) ==> r.value == lease)
              else r == Err(spec.error) && store.Tables() == old(store.Tables()) && Rows() == old(Rows())
      ensures r.Ok? <==> AcceptsNight(old(store.Tables()), old(coordination.Plan()), old(Rows()),
                                      h, contract, shiftOpen, night, maxSlots, now, ttl, lease, dispatch)
      ensures r.Ok? ==>
                NightGrants(old(store.Tables()), old(Rows()), store.Tables(), Rows(), h, night, maxSlots, now, ttl, lease, dispatch)
    {
      ghost var before, saved := store.Tables(), Rows();
      NightAccepted(before, coordination.Plan(), saved, h, contract, shiftOpen, night, maxSlots, now, ttl, lease, dispatch);
      var q := RequestOf(h, now, ttl, lease, dispatch);
      if !ValidContract(h, contract) || !WindowOpen(h, now, shiftOpen) || !shiftOpen { return Err(Conflict); }
      if ttl < 30 || ttl > 3600 { return Err(BadValue); }
      var prior := store.FindKey(h.key);
      if prior.Some? {
        var c := store.claims[prior.value];
        r := if SameClaim(c, q) && Live(c) then Ok(prior.value) else Err(Conflict);
        return;
      }
      var eligible := coordination.MayClaim(h);
      var grantable := coordination.MayGrant(q);
      if !eligible || !grantable { return Err(Conflict); }
      EligibleBooks(before, coordination.Plan(), saved, h, contract, shiftOpen, night, maxSlots, now, ttl, lease, dispatch);
      r := BookAndClaim(h, night, q);
      if r.Ok? {
        BookedKeeps(before, coordination.Plan(), saved, h, contract, shiftOpen, night, maxSlots, now, ttl, lease, dispatch);
        NightWrites(before, coordination.Plan(), saved, h, contract, shiftOpen, night, maxSlots, now, ttl, lease, dispatch);
      }
    }

    // ---- enqueue, reconcile ----

    lemma BindKeepsClaims(
      a: Core, plan: Coord, h: Handoff, contract: Contract, now: int, waiting: seq<LeaseId>, r: Res<()>, b: Core)
      requires Consistent(a) && Planned(a, plan)
      requires var spec := CoordinationSpec.Bind(a, plan, h, contract, now, waiting);
               if spec.Ok? then b == spec.value.0 else b == a
      ensures ClaimsEvolve(a, b)
    {
      var spec := CoordinationSpec.Bind(a, plan, h, contract, now, waiting);
      if spec.Ok? { BindKeeps(a, plan, h, contract, now, waiting); } else { EvolvesReflexive(a); }
    }

    method File(h: Handoff, contract: Contract) returns (r: Res<()>)
      requires Valid()
      modifies this`queue
      ensures Valid()
      ensures var row := EnqueueRow(old(Rows()), h, contract);
              if row.Ok? then r == Ok(()) && Rows() == row.value else r == Err(row.error) && Rows() == old(Rows())
      ensures r.Ok? <==> AcceptsQueue(old(Rows()), h, contract)
      ensures r.Ok? ==> RowFiled(old(Rows()), Rows(), h, contract,
                                 if h.delegation in old(queue) then old(queue)[h.delegation].state else Binding)
    {
      EnqueueWrites(Rows(), h, contract);
      if !ValidContract(h, contract) || !h.overnight { return Err(Conflict); }
      if h.delegation in queue {
        if queue[h.delegation].handoff != h || queue[h.delegation].contract != contract { return Err(Conflict); }
      } else {
        ghost var before := Rows();
        queue := queue[h.delegation := QueueRow(h, contract, Binding)];
        QueueKeepsBudget(store.Tables(), before, Rows());
      }
      r := Ok(());
    }

    method MarkQueued(d: DelegationId)
      requires Valid() && d in queue && queue[d].state == Binding
      modifies this`queue
      ensures Valid() && Rows() == QueueBound(old(Rows()), d)
    {
      ghost var before := Rows();
      queue := queue[d := queue[d].(state := Queued)];
      QueueKeepsBudget(store.Tables(), before, Rows());
    }

    /** The binding of a filed row, and the mark that it is bound. */
    method BindFiled(h: Handoff, contract: Contract, now: int) returns (r: Res<()>, ghost waiting: seq<LeaseId>)
      requires Valid() && h.delegation in queue && queue[h.delegation].state == Binding
      modifies this, store, coordination
      ensures Valid()
      ensures r.Ok? <==> AcceptsBinding(old(store.Tables()), old(coordination.Plan()), h, contract)
      ensures r.Ok? ==>
                HandoffBound(old(store.Tables()), old(coordination.Plan()), store.Tables(), coordination.Plan(), h, contract, now)
      ensures BothEnd(r, CoordinationSpec.Bind(old(store.Tables()), old(coordination.Plan()), h, contract, now, waiting),
                      old(store.Tables()), old(coordination.Plan()), store.Tables(), coordination.Plan())
      ensures Rows() == if r.Ok? then QueueBound(old(Rows()), h.delegation) else old(Rows())
    {
      ghost var before, filed, plan := store.Tables(), Rows(), coordination.Plan();
      r, waiting := coordination.Bind(h, contract, now);
      BindKeepsClaims(before, plan, h, contract, now, waiting, r, store.Tables());
      SupervisorKeepsBudget(before, store.Tables(), filed);
      if r.Ok? { MarkQueued(h.delegation); }
    }

    /** Three transactions: the row, the binding, and the row again. A refused binding leaves the row BINDING. */
    method Enqueue(h: Handoff, contract: Contract, now: int) returns (r: Res<()>, ghost waiting: seq<LeaseId>)
      requires Valid()
      modifies this, store, coordination
      ensures Valid()
      ensures if !AcceptsQueue(old(Rows()), h, contract) || Filed(old(Rows()), h.delegation) then
                && r == (if AcceptsQueue(old(Rows()), h, contract) then Ok(()) else Err(Conflict)) && Rows() == old(Rows())
                && store.Tables() == old(store.Tables()) && coordination.Plan() == old(coordination.Plan())
              else
                && BothEnd(r, CoordinationSpec.Bind(old(store.Tables()), old(coordination.Plan()), h, contract, now, waiting),
                           old(store.Tables()), old(coordination.Plan()), store.Tables(), coordination.Plan())
                && RowFiled(old(Rows()), Rows(), h, contract, if r.Ok? then Queued else Binding)
                && (r.Ok? <==> AcceptsBinding(old(store.Tables()), old(coordination.Plan()), h, contract))
                && (r.Ok? ==> HandoffBound(old(store.Tables()), old(coordination.Plan()), store.Tables(), coordination.Plan(),
                                           h, contract, now))
    {
      waiting := [];
      r := File(h, contract);
      if r.Ok? && queue[h.delegation].state == Binding {
        FiledThenBound(old(Rows()), Rows(), h, contract);
        r, waiting := BindFiled(h, contract, now);
      }
    }

    /** The chain of cases in `reconcile`. */
    method Derive(d: DelegationId, live: bool) returns (s: QueueState)
      requires live == HasLive(store.Tables(), d) && coordination.store == store
      ensures s == DerivedState(store.Tables(), coordination.Plan(), d)
    {
      if d in coordination.tasks && coordination.tasks[d].cancelled { return Withdrawn; }
      if d !in store.delegations { return NeedsReconcile; }
      var x := store.delegations[d].state;
      if x == Validating { return InEvaluation; }
      if x == Completed || x == Blocked || x == Cancelled { return if x != Cancelled then Finished else Withdrawn; }
      if x == Stale { return NeedsReconcile; }
      if live { return InClaim; }
      if x == Ready { return Queued; }
      s := NeedsReconcile;
    }

    method ReconcileRow(d: DelegationId)
      requires store.Valid() && coordination.store == store && d in queue
      modifies this`queue
      ensures queue == old(queue)[d := ReconciledRow(store.Tables(), coordination.Plan(), old(queue)[d], d)]
    {
      if queue[d].state != Binding {
        var live := coordination.LiveClaim(d);
        var state := Derive(d, live.Some?);
        queue := queue[d := queue[d].(state := state)];
      }
    }

    method ReconcileRows()
      requires store.Valid() && coordination.store == store
      modifies this`queue
      ensures Rows() == Reconciled(store.Tables(), coordination.Plan(), old(Rows()))
    {
      ghost var before := queue;
      var rows := Select(queue.Keys);
      var i := 0;
      while i < |rows|
        invariant i <= |rows| && queue.Keys == before.Keys
        invariant forall d :: d in rows[i..] ==> queue[d] == before[d]
        invariant forall d :: d in rows[..i] ==> queue[d] == ReconciledRow(store.Tables(), coordination.Plan(), before[d], d)
      {
        var d := rows[i];
        assert d in rows && d == rows[i..][0] && rows[i..][1..] == rows[i + 1..] && rows[..i + 1] == rows[..i] + [d];
        assert d !in rows[..i] && d !in rows[i + 1..];
        ReconcileRow(d);
        i := i + 1;
      }
      assert rows[..i] == rows;
    }

    method Reconcile()
      requires Valid()
      modifies this`queue
      ensures Valid() && Rows() == Reconciled(store.Tables(), coordination.Plan(), old(Rows()))
      ensures QueueShows(store.Tables(), coordination.Plan(), old(Rows()), Rows())
    {
      ghost var before := Rows();
      ReconcileWrites(store.Tables(), coordination.Plan(), before);
      ReconcileRows();
      QueueKeepsBudget(store.Tables(), before, Rows());
    }

    // ---- candidates ----

    /** `_active_orders_by_lane`: the lowest execution order of the active rows of each lane. */
    method ActiveOrders() returns (orders: map<LaneId, int>)
      ensures forall x :: x in orders ==> Barrier(Rows(), x, orders[x])
      ensures forall x :: x in orders ==> exists d :: OnStage(Rows(), d, x) && queue[d].handoff.order == orders[x]
      ensures forall d :: d in queue && ActiveStage(queue[d].state) ==> queue[d].handoff.lane in orders
    {
      var rows := Select(queue.Keys);
      orders := map[];
      var i := 0;
      while i < |rows|
        invariant i <= |rows|
        invariant forall d :: d in rows[..i] && ActiveStage(queue[d].state) ==>
                    queue[d].handoff.lane in orders && orders[queue[d].handoff.lane] <= queue[d].handoff.order
        invariant forall x :: x in orders ==> exists d :: OnStage(Rows(), d, x) && queue[d].handoff.order == orders[x]
      {
        var d := rows[i];
        assert d in rows && rows[..i + 1] == rows[..i] + [d];
        var h := queue[d].handoff;
        if ActiveStage(queue[d].state) && (h.lane !in orders || h.order < orders[h.lane]) {
          assert OnStage(Rows(), d, h.lane);
          orders := orders[h.lane := h.order];
        }
        i := i + 1;
      }
      assert rows[..i] == rows;
    }

    predicate Passes(orders: map<LaneId, int>, evaluating: set<LaneId>, d: DelegationId, now: int) reads this {
      && d in queue && queue[d].state == Queued
      && var h := queue[d].handoff;
      && h.lane !in evaluating && h.lane in orders && orders[h.lane] == h.order
      && (h.notBefore.Some? ==> now >= h.notBefore.value)
      && (h.notAfter.Some? ==> now < h.notAfter.value)
    }

    /** The filter of `_ordered_candidates` lets through exactly the candidates. */
    lemma FilterIsExact(orders: map<LaneId, int>, evaluating: set<LaneId>, d: DelegationId, now: int)
      requires forall x :: x in orders ==> Barrier(Rows(), x, orders[x])
      requires forall x :: x in orders ==> exists e :: OnStage(Rows(), e, x) && queue[e].handoff.order == orders[x]
      requires forall e :: e in queue && ActiveStage(queue[e].state) ==> queue[e].handoff.lane in orders
      requires forall x :: x in evaluating <==> LaneEvaluates(Rows(), x)
      ensures Passes(orders, evaluating, d, now) <==> Candidate(Rows(), d, now)
    {
      if d in queue && queue[d].state == Queued {
        var lane := queue[d].handoff.lane;
        assert OnStage(Rows(), d, lane);
        var e :| OnStage(Rows(), e, lane) && queue[e].handoff.order == orders[lane];
        assert e in Rows().queue;
      }
    }

    predicate Sorted(rows: seq<DelegationId>) reads this {
      && (forall d :: d in rows ==> d in queue)
      && forall i, j :: 0 <= i < j < |rows| ==> Precedes(queue[rows[i]].handoff, queue[rows[j]].handoff)
    }

    lemma InsertedHolds(rows: seq<DelegationId>, d: DelegationId, k: nat)
      requires k <= |rows|
      ensures forall x :: x in rows[..k] + [d] + rows[k..] <==> x in rows || x == d
    {
      assert rows == rows[..k] + rows[k..];
      forall x: DelegationId ensures x in rows <==> x in rows[..k] || x in rows[k..] { }
    }

    lemma InsertedSorted(rows: seq<DelegationId>, d: DelegationId, k: nat, more: seq<DelegationId>)
      requires Sorted(rows) && Distinct(rows) && d in queue && d !in rows && k <= |rows| && |more| == |rows| + 1
      requires more[k] == d && (forall i {:trigger more[i]} :: 0 <= i < k ==> more[i] == rows[i])
      requires forall i {:trigger more[i]} :: k < i < |more| ==> more[i] == rows[i - 1]
      requires forall j :: 0 <= j < k ==> Precedes(queue[rows[j]].handoff, queue[d].handoff)
      requires k < |rows| ==> !Precedes(queue[rows[k]].handoff, queue[d].handoff)
      ensures Sorted(more) && Distinct(more)
    {
      forall i | 0 <= i < |more| ensures more[i] in queue { assert i != k ==> more[i] in rows; }
      forall i, j | 0 <= i < j < |more| ensures more[i] != more[j] && Precedes(queue[more[i]].handoff, queue[more[j]].handoff) {
        var x := if i < k then i else i - 1;
        var y := if j < k then j else j - 1;
        if i != k && j != k { assert more[i] == rows[x] && more[j] == rows[y] && 0 <= x < y < |rows|; }
        else if j == k { assert more[i] == rows[x] && more[i] in rows; }
        else {
          assert more[j] == rows[y] && more[j] in rows && k <= y;
          if k < y { assert Precedes(queue[rows[k]].handoff, queue[rows[y]].handoff); }
        }
      }
    }

    /** The rows of the answer are sorted as they come in. */
    method Insert(rows: seq<DelegationId>, d: DelegationId) returns (more: seq<DelegationId>)
      requires Sorted(rows) && d in queue && d !in rows && Distinct(rows)
      ensures Sorted(more) && Distinct(more) && forall x :: x in more <==> x in rows || x == d
    {
      var k := 0;
      while k < |rows| && Precedes(queue[rows[k]].handoff, queue[d].handoff)
        invariant k <= |rows|
        invariant forall j :: 0 <= j < k ==> Precedes(queue[rows[j]].handoff, queue[d].handoff)
      {
        k := k + 1;
      }
      more := rows[..k] + [d] + rows[k..];
      InsertedHolds(rows, d, k);
      InsertedSorted(rows, d, k, more);
    }

    method OrderedCandidates(now: int) returns (rows: seq<DelegationId>)
      ensures Sorted(rows) && Distinct(rows)
      ensures forall d :: d in rows <==> Candidate(Rows(), d, now)
    {
      var orders := ActiveOrders();
      var evaluating := set d | d in queue && queue[d].state == InEvaluation :: queue[d].handoff.lane;
      assert forall x :: x in evaluating <==> LaneEvaluates(Rows(), x);
      var all := Select(queue.Keys);
      rows := [];
      var i := 0;
      while i < |all|
        invariant i <= |all| && Sorted(rows) && Distinct(rows)
        invariant forall d :: d in rows <==> d in all[..i] && Passes(orders, evaluating, d, now)
      {
        var d := all[i];
        assert d in all && all[..i + 1] == all[..i] + [d];
        if Passes(orders, evaluating, d, now) { rows := Insert(rows, d); }
        i := i + 1;
      }
      assert all[..i] == all;
      forall d: nat ensures d in rows <==> Candidate(Rows(), d, now) { FilterIsExact(orders, evaluating, d, now); }
    }

    // ---- tick ----

    method MarkClaimed(d: DelegationId)
      requires Valid() && d in queue
      modifies this`queue
      ensures Valid() && Rows() == QueueClaimed(old(Rows()), d)
    {
      ghost var booked := Rows();
      queue := queue[d := queue[d].(state := InClaim)];
      QueueKeepsBudget(store.Tables(), booked, Rows());
    }

    /** The claim of a READY row. */
    method ClaimRow(d: DelegationId, night: nat, now: int, ttl: int, lease: LeaseId, dispatch: DispatchId)
      returns (r: Res<LeaseId>)
      requires Valid() && d in queue && d in store.delegations && store.delegations[d].state == Ready
      requires InWindow(queue[d].handoff, now, true)
      modifies this, store
      ensures Valid() && coordination.Plan() == old(coordination.Plan()) && queue == old(queue)
      ensures r.Ok? <==> AcceptsNight(old(store.Tables()), coordination.Plan(), old(Rows()), queue[d].handoff, queue[d].contract,
                                      true, night, maxSlots, now, ttl, lease, dispatch)
      ensures r.Err? ==> store.Tables() == old(store.Tables()) && Rows() == old(Rows())
      ensures r.Err? && r.error == BadValue <==> ttl < 30 || ttl > 3600
      ensures r.Ok? ==>
                && r.value == lease && Gained(old(store.Tables()), store.Tables(), lease, d)
                && BudgetOf(Rows(), night, maxSlots).used == BudgetOf(old(Rows()), night, maxSlots).used + 1
                && HandoffGranted(old(store.Tables()), store.Tables(), queue[d].handoff, now, ttl, lease, dispatch)
                && SlotBooked(old(Rows()), Rows(), night, maxSlots, d, lease)
    {
      ghost var before, saved := store.Tables(), Rows();
      var h, contract := queue[d].handoff, queue[d].contract;
      assert Admitted(Rows(), d);
      r := ClaimAuthorized(h, contract, true, night, now, ttl, lease, dispatch);
      TriedOutcome(
        before, coordination.Plan(), saved, h, contract, true, night, maxSlots, now, ttl, lease, dispatch, r,
        store.Tables(), Rows());
    }

    /** Claims one candidate and marks its row; a refusal changes nothing. */
    method TryCandidate(d: DelegationId, night: nat, now: int, ttl: int, lease: LeaseId, dispatch: DispatchId)
      returns (r: Res<LeaseId>)
      requires Valid() && d in queue && d in store.delegations && store.delegations[d].state == Ready
      requires InWindow(queue[d].handoff, now, true)
      modifies this, store
      ensures Valid() && coordination.Plan() == old(coordination.Plan())
      ensures Tried(old(store.Tables()), coordination.Plan(), old(Rows()), store.Tables(), Rows(),
                    d, night, maxSlots, now, ttl, lease, dispatch)
      ensures r.Err? ==> store.Tables() == old(store.Tables()) && Rows() == old(Rows())
      ensures r.Err? && r.error == BadValue <==> ttl < 30 || ttl > 3600
      ensures r.Ok? ==>
                && r.value == lease && Gained(old(store.Tables()), store.Tables(), lease, d)
                && queue == old(queue)[d := old(queue)[d].(state := InClaim)]
                && BudgetOf(Rows(), night, maxSlots).used == BudgetOf(old(Rows()), night, maxSlots).used + 1
    {
      r := ClaimRow(d, night, now, ttl, lease, dispatch);
      ghost var claimed := Rows();
      if r.Ok? {
        MarkClaimed(d);
        assert Rows().(queue := claimed.queue) == claimed;
      }
    }

    /** Tries the candidates in order until enough are claimed; `trail` holds the tables between the tries. */
    method ClaimCandidates(
      rows: seq<DelegationId>, now: int, night: nat, maxClaims: nat, ttl: int, ids: nat -> (LeaseId, DispatchId))
      returns (r: Res<seq<LeaseId>>, blocked: seq<DelegationId>, ghost trail: Trail)
      requires Valid() && Distinct(rows) && AllReady(store.Tables(), rows) && forall d :: d in rows ==> Candidate(Rows(), d, now)
      modifies this, store
      ensures Valid() && coordination.Plan() == old(coordination.Plan())
      ensures r.Err? <==> rows != [] && maxClaims > 0 && (ttl < 30 || ttl > 3600)
      ensures r.Err? ==> r.error == BadValue && store.Tables() == old(store.Tables()) && Rows() == old(Rows())
      ensures r.Ok? ==>
                && |r.value| <= maxClaims && trail != [] && (|trail| == |rows| + 1 || |r.value| == maxClaims)
                && Walked(coordination.Plan(), old(store.Tables()), old(Rows()), store.Tables(), Rows(), rows, |trail| - 1, trail,
                          ids, night, maxSlots, now, ttl, r.value, blocked)
    {
      ghost var a, n, p := store.Tables(), Rows(), coordination.Plan();
      var claims := [];
      blocked, trail := [], [(a, n)];
      var i := 0;
      while i < |rows| && |claims| < maxClaims
        invariant i <= |rows| && |claims| <= maxClaims && Valid() && coordination.Plan() == p && (i > 0 ==> 30 <= ttl <= 3600)
        invariant Walked(p, a, n, store.Tables(), Rows(), rows, i, trail, ids, night, maxSlots, now, ttl, claims, blocked)
      {
        var d := rows[i];
        ghost var before, saved := store.Tables(), Rows();
        NextTry(before, n, saved, rows, i, now);
        var id := ids(i);
        var claim := TryCandidate(d, night, now, ttl, id.0, id.1);
        if claim.Err? && claim.error == BadValue { return Err(BadValue), blocked, trail; }
        WalksOn(p, a, n, before, saved, rows, i, trail, ids, night, maxSlots, now, ttl, claims, blocked, store.Tables(), Rows(), claim);
        trail := trail + [(store.Tables(), Rows())];
        if claim.Ok? { claims := claims + [claim.value]; } else { blocked := blocked + [d]; }
        i := i + 1;
      }
      r := Ok(claims);
    }

    /** The pass over the candidates of the queue that was just reconciled from `filed`. */
    method TryAll(
      ghost filed: Night, now: int, night: nat, maxClaims: nat, ttl: int, ids: nat -> (LeaseId, DispatchId))
      returns (r: Res<seq<LeaseId>>, blocked: seq<DelegationId>, ghost rows: seq<DelegationId>, ghost trail: Trail)
      requires Valid() && Rows() == Reconciled(store.Tables(), coordination.Plan(), filed) && maxClaims > 0
      modifies this, store
      ensures Valid() && coordination.Plan() == old(coordination.Plan())
      ensures DueInOrder(old(store.Tables()), coordination.Plan(), filed, rows, now)
      ensures r.Err? <==> rows != [] && (ttl < 30 || ttl > 3600)
      ensures r.Err? ==> r.error == BadValue && store.Tables() == old(store.Tables()) && Rows() == old(Rows())
      ensures r.Ok? ==>
                && |r.value| <= maxClaims && trail != [] && (|trail| == |rows| + 1 || |r.value| == maxClaims)
                && Walked(coordination.Plan(), old(store.Tables()), old(Rows()), store.Tables(), Rows(), rows, |trail| - 1, trail,
                          ids, night, maxSlots, now, ttl, r.value, blocked)
    {
      var candidates := OrderedCandidates(now);
      rows := candidates;
      CandidatesAreDue(store.Tables(), coordination.Plan(), filed, Rows(), candidates, now);
      r, blocked, trail := ClaimCandidates(candidates, now, night, maxClaims, ttl, ids);
    }

    /** One pass over the reconciled queue: it tries what is due in the order of priority, stage, lane and id, each on the tables
        that the try before left, until enough is claimed; everything that it claims was due, and costs one slot of the night. */
    method Tick(now: int, shiftOpen: bool, night: nat, maxClaims: int, ttl: int, ids: nat -> (LeaseId, DispatchId))
      returns (r: Res<seq<LeaseId>>, blocked: seq<DelegationId>, ghost rows: seq<DelegationId>, ghost trail: Trail)
      requires Valid()
      modifies this, store
      ensures Valid() && coordination.Plan() == old(coordination.Plan())
      ensures 1 <= maxClaims <= 64 && shiftOpen ==>
                DueInOrder(old(store.Tables()), coordination.Plan(), old(Rows()), rows, now)
      ensures r.Err? <==> maxClaims < 1 || maxClaims > 64 || (shiftOpen && rows != [] && (ttl < 30 || ttl > 3600))
      ensures r.Err? ==> r.error == BadValue && store.Tables() == old(store.Tables())
      ensures r.Ok? ==> |r.value| <= maxClaims <= 64
      ensures r.Ok? ==> BudgetOf(Rows(), night, maxSlots).used == BudgetOf(old(Rows()), night, maxSlots).used + |r.value|
      ensures r.Ok? ==> ClaimedFrom(old(store.Tables()), store.Tables(), r.value,
                                    Reconciled(old(store.Tables()), coordination.Plan(), old(Rows())), now)
      ensures r.Ok? && !shiftOpen ==>
                r.value == [] && store.Tables() == old(store.Tables())
                && Rows() == Reconciled(old(store.Tables()), coordination.Plan(), old(Rows()))
      ensures r.Ok? && shiftOpen ==>
                && trail != [] && (|trail| == |rows| + 1 || |r.value| == maxClaims)
                && Walked(coordination.Plan(), old(store.Tables()), Reconciled(old(store.Tables()), coordination.Plan(), old(Rows())),
                          store.Tables(), Rows(), rows, |trail| - 1, trail, ids, night, maxSlots, now, ttl, r.value, blocked)
    {
      blocked, rows, trail := [], [], [];
      if maxClaims < 1 || maxClaims > 64 { return Err(BadValue), [], [], []; }
      ghost var filed := Rows();
      Reconcile();
      if !shiftOpen { return Ok([]), [], [], []; }
      r, blocked, rows, trail := TryAll(filed, now, night, maxClaims, ttl, ids);
    }
  }

  /** What a pass that ended claimed: live claims on what was due, one slot of the night each. */
  lemma PassClaims(
    k: Coord, a: Core, n: Night, b: Core, m: Night, rows: seq<DelegationId>, i: nat, t: Trail,
    ids: nat -> (LeaseId, DispatchId), night: nat, limit: int, now: int, ttl: int, claims: seq<LeaseId>, blocked: seq<DelegationId>)
    requires Consistent(a) && Walked(k, a, Reconciled(a, k, n), b, m, rows, i, t, ids, night, limit, now, ttl, claims, blocked)
    ensures forall l :: l in b.claims <==> l in a.claims || l in claims
    ensures forall l :: l in claims ==> l in b.claims && l !in a.claims && Live(b.claims[l]) && Due(a, k, n, b.claims[l].delegation, now)
    ensures BudgetOf(m, night, limit).used == BudgetOf(n, night, limit).used + |claims|
  {
    forall l | l in claims ensures Due(a, k, n, b.claims[l].delegation, now) {
      StageOpensExactly(a, k, n, b.claims[l].delegation, now);
    }
  }
}
