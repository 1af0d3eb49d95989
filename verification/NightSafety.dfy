/** The slot budget of a night is conserved. */
module NightSafety {
  import opened Tables
  import opened SupervisorSpec
  import opened SupervisorInvariants
  import opened SupervisorSafety
  import opened CoordinationSpec
  import opened NightSpec

  /** The slots of a night that are in use are exactly 1..used, and there are at most 64. */
  ghost predicate BudgetOk(n: Night, night: nat)
    requires night in n.budgets
  {
    && 0 <= n.budgets[night].used <= n.budgets[night].limit && 1 <= n.budgets[night].limit <= 64
    && forall s: int :: (night, s) in n.usage <==> 1 <= s <= n.budgets[night].used
  }

  /** A slot belongs to a claim of the delegation that it names. */
  predicate UsageOk(c: Core, n: Night, u: (nat, int))
    requires u in n.usage
  {
    && u.0 in n.budgets && n.usage[u].lease in c.claims
    && c.claims[n.usage[u].lease].delegation == n.usage[u].delegation
  }

  predicate SameLease(n: Night, u: (nat, int), v: (nat, int))
    requires u in n.usage && v in n.usage
  {
    n.usage[u].lease == n.usage[v].lease
  }

  ghost predicate Budgeted(c: Core, n: Night) {
    && n.auths == {}
    && (forall x {:trigger BudgetOk(n, x)} :: x in n.budgets ==> BudgetOk(n, x))
    && (forall u {:trigger UsageOk(c, n, u)} :: u in n.usage ==> UsageOk(c, n, u))
    && (forall u, v {:trigger SameLease(n, u, v)} :: u in n.usage && v in n.usage && SameLease(n, u, v) ==> u == v)
  }

  /** Slots that are booked stay booked, and queued delegations stay queued. */
  ghost predicate NightMoves(n: Night, m: Night) {
    && n.queue.Keys <= m.queue.Keys
    && forall u :: u in n.usage ==> u in m.usage && m.usage[u] == n.usage[u]
  }

  function Slots(night: nat, used: int): set<(nat, int)> { set s: int | 1 <= s <= used :: (night, s) }

  lemma {:induction false} SlotsCount(night: nat, used: nat)
    ensures |Slots(night, used)| == used
  {
    if used > 0 {
      assert Slots(night, used) == Slots(night, used - 1) + {(night, used)};
      SlotsCount(night, used - 1);
    }
  }

  lemma NightsKnown(c: Core, n: Night)
    requires Budgeted(c, n)
    ensures forall u :: u in n.usage ==> u.0 in n.budgets
  {
    forall u | u in n.usage ensures u.0 in n.budgets { assert UsageOk(c, n, u); }
  }

  /** The next slot of a night is free. */
  lemma NextSlotFree(c: Core, n: Night, night: nat, limit: int)
    requires Budgeted(c, n)
    ensures (night, BudgetOf(n, night, limit).used + 1) !in n.usage
  {
    NightsKnown(c, n);
    assert night in n.budgets ==> BudgetOk(n, night);
    assert night !in n.budgets ==> forall s: int {:trigger (night, s)} :: (night, s) in n.usage ==> (night, s).0 in n.budgets;
  }

  /** The accounting-mismatch error cannot occur. */
  lemma NeverMiscounted(c: Core, n: Night, night: nat, limit: int)
    requires Budgeted(c, n)
    ensures !Miscounted(n, night, limit)
  {
    if night in n.budgets {
      assert BudgetOk(n, night);
      forall u | u in n.usage && u.0 == night ensures u in Slots(night, n.budgets[night].used) {
        var s := u.1;
        assert u == (night, s) && (night, s) in n.usage;
        assert 1 <= s <= n.budgets[night].used;
      }
      assert UsedSlots(n, night) == Slots(night, n.budgets[night].used);
      SlotsCount(night, n.budgets[night].used);
    } else {
      NightsKnown(c, n);
      assert UsedSlots(n, night) == {};
    }
  }

  lemma SupervisorKeepsBudget(a: Core, b: Core, n: Night)
    requires Budgeted(a, n) && ClaimsEvolve(a, b)
    ensures Budgeted(b, n)
  {
    forall u | u in n.usage ensures UsageOk(b, n, u) {
      assert UsageOk(a, n, u) && ClaimEvolves(a, b, n.usage[u].lease);
    }
  }

  /** A slot for a new claim is refused exactly when the night is full or has another limit: neither the accounting check
      nor a uniqueness constraint ever refuses it. */
  lemma ReserveExactly(c: Core, n: Night, q: Request, night: nat, limit: int)
    requires Consistent(c) && Budgeted(c, n) && Grantable(c, q) && Fresh(c, q)
    ensures ReserveSlot(n, night, limit, Usage(q.delegation, q.lease)).Ok? <==>
              BudgetOf(n, night, limit).limit == limit && BudgetOf(n, night, limit).used < limit
  {
    GrantedClaims(c, q);
    NeverMiscounted(c, n, night, limit);
    NextSlotFree(c, n, night, limit);
    forall u | u in n.usage ensures n.usage[u].lease != q.lease && n.usage[u].delegation != q.delegation {
      assert UsageOk(c, n, u);
    }
  }

  lemma ReserveKeeps(c: Core, n: Night, q: Request, night: nat, limit: int, m: Night)
    requires Consistent(c) && Budgeted(c, n) && Grantable(c, q) && Fresh(c, q) && 1 <= limit <= 64
    requires ReserveSlot(n, night, limit, Usage(q.delegation, q.lease)).Ok?
    requires m == ReserveSlot(n, night, limit, Usage(q.delegation, q.lease)).value
    ensures Budgeted(Grant(c, q), m) && NightMoves(n, m)
    ensures m.usage == n.usage[(night, m.budgets[night].used) := Usage(q.delegation, q.lease)]
    ensures m.budgets[night].used == BudgetOf(n, night, limit).used + 1
  {
    var b := Grant(c, q);
    NightsKnown(c, n);
    NextSlotFree(c, n, night, limit);
    assert night in n.budgets ==> BudgetOk(n, night);
    forall x | x in m.budgets ensures BudgetOk(m, x) {
      if x in n.budgets { assert BudgetOk(n, x); }
      forall s: int ensures (x, s) in m.usage <==> 1 <= s <= m.budgets[x].used {
        assert (x, s) in n.usage ==> (x, s).0 in n.budgets;
      }
    }
    forall u | u in m.usage ensures UsageOk(b, m, u) { if u in n.usage { assert UsageOk(c, n, u); } }
    forall u, v | u in m.usage && v in m.usage && SameLease(m, u, v) ensures u == v {
      if u in n.usage && v in n.usage { assert SameLease(n, u, v); }
    }
  }

  /** A scheduler claim with a new key books a slot, and its authorization is gone at the end. */
  lemma NightClaimOutcome(
    c: Core, p: Coord, n: Night, h: Handoff, k: Contract, shiftOpen: bool, nightKey: nat, limit: int, now: int, ttl: int,
    lease: LeaseId, dispatch: DispatchId)
    requires NightClaim(c, p, n, h, k, shiftOpen, nightKey, limit, now, ttl, lease, dispatch).Ok?
    requires !KeyUsed(c, h.key) && n.auths == {}
    ensures var q := RequestOf(h, now, ttl, lease, dispatch);
            var slot := ReserveSlot(n, nightKey, limit, Usage(h.delegation, lease));
            && slot.Ok? && Eligible(c, p, h) && Grantable(c, q) && Fresh(c, q) && 1 <= limit <= 64
            && NightClaim(c, p, n, h, k, shiftOpen, nightKey, limit, now, ttl, lease, dispatch)
               == Ok((Grant(c, q), slot.value))
  {
    var slot := ReserveSlot(n, nightKey, limit, Usage(h.delegation, lease)).value;
    assert Deauthorize(Authorize(slot, h.delegation, h.key), h.delegation, h.key) == slot;
  }

  /** Changes of queue states leave the budget alone. */
  lemma QueueKeepsBudget(c: Core, n: Night, m: Night)
    requires Budgeted(c, n) && m == n.(queue := m.queue)
    ensures Budgeted(c, m)
  {
    forall x | x in m.budgets ensures BudgetOk(m, x) { assert BudgetOk(n, x); }
    forall u | u in m.usage ensures UsageOk(c, m, u) { assert UsageOk(c, n, u); }
    forall u, v | u in m.usage && v in m.usage && SameLease(m, u, v) ensures u == v { assert SameLease(n, u, v); }
  }
}
