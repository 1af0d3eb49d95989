/** The operations of the Book lifecycle as they run: a state is cloned into a draft, the draft is changed field by
    field, and closed. */
module BookMachine {
  import opened Wrappers
  import opened BookSpec
  import opened BookSafety
  import opened BookEffects

  class Draft {
    var version: nat
    var source: nat
    var profile: set<nat>
    var phases: seq<PhaseState>
    var status: BookStatus

    function Value(): Book reads this { Book(version, source, profile, phases, status) }

    /** `clone` */
    constructor (b: Book)
      ensures Value() == b
    { version, source, profile, phases, status := b.version, b.source, b.profile, b.phases, b.status; }

    /** `prerequisitesSatisfied` */
    method PrerequisitesSatisfied(index: nat) returns (ok: bool)
      requires index <= |phases|
      ensures ok == PrerequisitesMet(phases, index)
    {
      var i := 0;
      while i < index
        invariant i <= index && PrerequisitesMet(phases, i)
      {
        if phases[i].applicable && phases[i].status != Complete { return false; }
        i := i + 1;
      }
      ok := true;
    }

    /** `refreshReadiness` */
    method RefreshReadiness()
      modifies this`phases
      ensures phases == Refreshed(old(phases))
    {
      var i := 0;
      while i < |phases|
        invariant i <= |phases| && phases == old(phases) && FirstWaiting(phases, 0) == FirstWaiting(phases, i)
      {
        if phases[i].applicable && phases[i].status == Pending {
          var ok := PrerequisitesSatisfied(i);
          if ok { phases := phases[i := phases[i].(status := Ready)]; }
          return;
        }
        i := i + 1;
      }
    }

    /** `staleOne` on one phase. */
    method StaleOne(i: nat, reason: Reason)
      requires i < |phases|
      modifies this`phases
      ensures phases == old(phases)[i := Staled(old(phases)[i], reason)]
    {
      var s := phases[i];
      if !s.applicable || s.status == Pending || s.status == NotApplicable { return; }
      if s.status == Complete && s.receipt.Some? && s.receipt.value !in s.superseded {
        s := s.(superseded := s.superseded + [s.receipt.value]);
      }
      s := s.(status := Stale, reason := reason, gate := false, receipt := None, blockers := []);
      phases := phases[i := s];
    }

    /** The loop of `staleOne` over the phases from `first` on. */
    method StaleFrom(first: nat, reason: Reason)
      modifies this`phases
      ensures phases == StaledIn(old(phases), From(first, |old(phases)|), reason)
    {
      var n := |phases|;
      var i := first;
      while i < n
        invariant |phases| == n == |old(phases)| && (first <= n ==> first <= i <= n)
        invariant forall j :: 0 <= j < n ==> phases[j] == if first <= j < i then Staled(old(phases)[j], reason) else old(phases)[j]
      {
        StaleOne(i, reason);
        i := i + 1;
      }
    }

    /** The loop of `staleOne` over a list of phases, which may name a phase twice. */
    method StaleListed(targets: seq<nat>, reason: Reason)
      requires forall x :: x in targets ==> x < |phases|
      modifies this`phases
      ensures phases == StaledIn(old(phases), (set x | x in targets), reason)
    {
      var i := 0;
      while i < |targets|
        invariant i <= |targets| && |phases| == |old(phases)|
        invariant forall j :: 0 <= j < |phases| ==>
                    phases[j] == if j in targets[..i] then Staled(old(phases)[j], reason) else old(phases)[j]
      {
        assert targets[..i + 1] == targets[..i] + [targets[i]] && targets[i] in targets;
        StaledTwice(old(phases)[targets[i]], reason);
        StaleOne(targets[i], reason);
        i := i + 1;
      }
      assert targets[..i] == targets;
    }

    lemma StaledTwice(s: PhaseState, reason: Reason)
      ensures Staled(Staled(s, reason), reason) == Staled(s, reason)
    { }

    /** The first loop of `reprofileLifecycle`; answers the first newly applicable phase. */
    method ReprofilePhases(k: Contract, next: set<nat>) returns (first: nat)
      requires |phases| == |k.phases|
      modifies this`phases, this`profile
      ensures first == FirstNewly(k, old(profile), next, 0) && profile == next
      ensures phases == ReprofiledPhases(k, old(Value()), next)
    {
      var before := profile;
      profile := next;
      var n := |phases|;
      first := n;
      var i := 0;
      while i < n
        invariant i <= n == |phases| && profile == next
        invariant forall j :: 0 <= j < i ==> phases[j] == ReprofiledPhases(k, old(Value()), next)[j]
        invariant forall j :: i <= j < n ==> phases[j] == old(phases)[j]
        invariant first < i || first == n
        invariant first < n ==> Newly(k.phases[first], before, next)
        invariant forall j :: 0 <= j < i && j < first ==> !Newly(k.phases[j], before, next)
      {
        var was, now := IsApplicable(k.phases[i], before), IsApplicable(k.phases[i], next);
        var s := phases[i].(applicable := now);
        if !was && now {
          s := s.(status := Pending, reason := NoReason, checkpoint := None);
          if first == n { first := i; }
        } else if was && !now {
          if s.status == Complete && s.receipt.Some? && s.receipt.value !in s.superseded {
            s := s.(superseded := s.superseded + [s.receipt.value]);
          }
          s := s.(status := NotApplicable, gate := false, receipt := None, blockers := [], reason := NoReason,
                  checkpoint := None);
        }
        phases := phases[i := s];
        i := i + 1;
      }
      FirstNewlyIs(k, before, next, 0, first);
    }

    lemma {:induction false} FirstNewlyIs(k: Contract, was: set<nat>, now: set<nat>, i: nat, r: nat)
      requires i <= r <= |k.phases| && (r < |k.phases| ==> Newly(k.phases[r], was, now))
      requires forall j :: i <= j < r ==> !Newly(k.phases[j], was, now)
      ensures FirstNewly(k, was, now, i) == r
      decreases r - i
    {
      if i < r { FirstNewlyIs(k, was, now, i + 1, r); }
    }

    method Replace(i: nat, s: PhaseState)
      requires i < |phases|
      modifies this`phases
      ensures Put(old(Value()), i, s) == Accepted(Value())
    { phases := phases[i := s]; }

    // ---- The mutators with loops ----

    method MutateStale(i: nat, text: nat, downstream: bool)
      requires i < |phases|
      modifies this
      ensures Value() == StaledBook(old(Value()), i, text, downstream)
    {
      if downstream { StaleFrom(i, Given(text)); } else { StaleOne(i, Given(text)); }
      assert phases == StaledIn(old(phases), if downstream then From(i, |old(phases)|) else {i}, Given(text));
    }

    method MutateReopen(i: nat)
      requires i < |phases|
      modifies this
      ensures Value() == ReopenedBook(old(Value()), i)
    {
      var s := phases[i];
      if s.status == Complete && s.receipt.Some? && s.receipt.value !in s.superseded {
        s := s.(superseded := s.superseded + [s.receipt.value]);
      }
      s := s.(status := Ready, gate := false, receipt := None, blockers := [], reason := NoReason, checkpoint := None,
              reopens := s.reopens + 1);
      phases := phases[i := s];
      StaleFrom(i + 1, UpstreamReopen(i));
    }

    method MutateProfile(k: Contract, next: set<nat>)
      requires |phases| == |k.phases|
      modifies this
      ensures Value() == ReprofiledBook(k, old(Value()), next)
    {
      var first := ReprofilePhases(k, next);
      StaleFrom(first + 1, ProfileChanged);
    }

    method MutateEvent(rule: Rule, target: Option<nat>)
      requires if rule.dynamic then target.Some? else forall x :: x in rule.targets ==> x < |phases|
      modifies this
      ensures Value() == InvalidatedBook(old(Value()), rule, target)
    {
      if rule.dynamic { StaleFrom(target.value, Given(rule.reason)); } else { StaleListed(rule.targets, Given(rule.reason)); }
    }

    /** The end of `mutate`. */
    method Close()
      modifies this
      ensures Value() == Closed(old(Value()))
    {
      RefreshReadiness();
      version := version + 1;
      status := DerivedStatus(phases);
    }
  }

  // ---- The mutators, on a state that `mutate` has validated ----

  /** The rest of `mutate` after the mutator: the draft is closed and validated. */
  method Finish(k: Contract, d: Draft) returns (r: Outcome)
    modifies d
    ensures r == Closing(k, Accepted(old(d.Value())))
  {
    d.Close();
    r := if Valid(k, d.Value()) then Accepted(d.Value()) else Rejected;
  }

  /** A mutator that changes the phase at `i` only. */
  method FinishPhase(k: Contract, b: Book, i: nat, s: PhaseState) returns (r: Outcome)
    requires i < |b.phases|
    ensures r == Closing(k, Put(b, i, s))
  {
    var d := new Draft(b);
    d.Replace(i, s);
    r := Finish(k, d);
  }

  /** The progress loop over one list. */
  method PushAll(have: seq<nat>, more: seq<nat>, known: seq<nat>) returns (ok: bool, all: seq<nat>)
    ensures ok == Within(more, known) && (ok ==> all == AddAll(have, more))
  {
    all := have;
    var i := 0;
    while i < |more|
      invariant i <= |more| && Within(more[..i], known) && AddAll(all, more[i..]) == AddAll(have, more)
    {
      if more[i] !in known { return false, all; }
      assert more[i..][1..] == more[i + 1..] && more[..i + 1] == more[..i] + [more[i]];
      if more[i] !in all { all := all + [more[i]]; }
      i := i + 1;
    }
    assert more[..i] == more;
    ok := true;
  }

  method ProgressIt(k: Contract, b: Book, i: nat, inputs: seq<nat>, decisions: seq<nat>, operations: seq<nat>)
    returns (r: Outcome)
    requires |b.phases| == |k.phases|
    ensures r == Closing(k, Mutated(k, b, Progress(i, inputs, decisions, operations)))
  {
    if !Mutable(b, i, WORKABLE) { return Rejected; }
    var s := b.phases[i];
    var ok, all := PushAll(s.inputs, inputs, k.phases[i].inputs);
    if !ok { return Rejected; }
    s := s.(inputs := all);
    ok, all := PushAll(s.decisions, decisions, k.phases[i].decisions);
    if !ok { return Rejected; }
    s := s.(decisions := all);
    ok, all := PushAll(s.operations, operations, k.phases[i].operations);
    if !ok { return Rejected; }
    s := s.(operations := all);
    assert Mutated(k, b, Progress(i, inputs, decisions, operations)) == Put(b, i, s);
    r := FinishPhase(k, b, i, s);
  }

  method StartIt(k: Contract, b: Book, i: nat) returns (r: Outcome)
    requires |b.phases| == |k.phases|
    ensures r == Closing(k, Mutated(k, b, Start(i)))
  {
    if !Mutable(b, i, STARTABLE) { return Rejected; }
    var s := b.phases[i].(status := Active, source := Some(b.source));
    assert Mutated(k, b, Start(i)) == Put(b, i, s);
    r := FinishPhase(k, b, i, s);
  }

  method SealIt(k: Contract, b: Book, i: nat, receipt: nat) returns (r: Outcome)
    requires |b.phases| == |k.phases|
    ensures r == Closing(k, Mutated(k, b, Seal(i, receipt)))
  {
    if !Mutable(b, i, FINISHABLE) { return Rejected; }
    if !Within(k.phases[i].inputs, b.phases[i].inputs) || !Within(k.phases[i].decisions, b.phases[i].decisions) { return Rejected; }
    var s := b.phases[i].(status := Complete, gate := true, receipt := Some(receipt), source := Some(b.source),
                          blockers := [], reason := NoReason, checkpoint := None);
    assert Mutated(k, b, Seal(i, receipt)) == Put(b, i, s);
    r := FinishPhase(k, b, i, s);
  }

  method BlockIt(k: Contract, b: Book, i: nat, blockers: seq<nat>) returns (r: Outcome)
    requires |b.phases| == |k.phases|
    ensures r == Closing(k, Mutated(k, b, Block(i, blockers)))
  {
    if !Distinct(blockers) || blockers == [] || !Mutable(b, i, FINISHABLE) { return Rejected; }
    var s := b.phases[i].(status := Blocked, blockers := blockers);
    assert Mutated(k, b, Block(i, blockers)) == Put(b, i, s);
    r := FinishPhase(k, b, i, s);
  }

  method UnblockIt(k: Contract, b: Book, i: nat) returns (r: Outcome)
    requires |b.phases| == |k.phases|
    ensures r == Closing(k, Mutated(k, b, Unblock(i)))
  {
    if !Mutable(b, i, BLOCKADED) { return Rejected; }
    var s := b.phases[i].(status := Ready, blockers := []);
    assert Mutated(k, b, Unblock(i)) == Put(b, i, s);
    r := FinishPhase(k, b, i, s);
  }

  method CancelIt(k: Contract, b: Book, i: nat, checkpoint: nat) returns (r: Outcome)
    requires |b.phases| == |k.phases|
    ensures r == Closing(k, Mutated(k, b, Cancel(i, checkpoint)))
  {
    if !Mutable(b, i, CANCELLABLE) { return Rejected; }
    var s := b.phases[i].(status := Cancelled, checkpoint := Some(checkpoint), blockers := []);
    assert Mutated(k, b, Cancel(i, checkpoint)) == Put(b, i, s);
    r := FinishPhase(k, b, i, s);
  }

  method RecoverIt(k: Contract, b: Book, i: nat, source: nat, checkpoint: nat) returns (r: Outcome)
    requires |b.phases| == |k.phases|
    ensures r == Closing(k, Mutated(k, b, Recover(i, source, checkpoint)))
  {
    if !Mutable(b, i, RECOVERABLE) || (b.phases[i].checkpoint.Some? && b.phases[i].checkpoint.value != checkpoint)
       || source != b.source
    {
      assert Mutated(k, b, Recover(i, source, checkpoint)) == Rejected;
      return Rejected;
    }
    var s := b.phases[i].(status := Ready, checkpoint := None, reason := NoReason, blockers := []);
    assert Mutated(k, b, Recover(i, source, checkpoint)) == Put(b, i, s);
    r := FinishPhase(k, b, i, s);
  }

  method StaleIt(k: Contract, b: Book, i: nat, text: nat, downstream: bool) returns (r: Outcome)
    requires |b.phases| == |k.phases|
    ensures r == Closing(k, Mutated(k, b, MarkStale(i, text, downstream)))
  {
    if i >= |b.phases| { return Rejected; }
    var d := new Draft(b);
    d.MutateStale(i, text, downstream);
    assert Mutated(k, b, MarkStale(i, text, downstream)) == Accepted(d.Value());
    r := Finish(k, d);
  }

  method ReopenIt(k: Contract, b: Book, i: nat) returns (r: Outcome)
    requires |b.phases| == |k.phases|
    ensures r == Closing(k, Mutated(k, b, Reopen(i)))
  {
    if i >= |k.phases| || !k.phases[i].reopenable { return Rejected; }
    if !Mutable(b, i, REOPENABLE) { return Rejected; }
    var d := new Draft(b);
    d.MutateReopen(i);
    assert Mutated(k, b, Reopen(i)) == Accepted(d.Value());
    r := Finish(k, d);
  }

  method ProfileIt(k: Contract, b: Book, profile: set<nat>) returns (r: Outcome)
    requires |b.phases| == |k.phases|
    ensures r == Closing(k, Mutated(k, b, Reprofile(profile)))
  {
    if profile !in k.profiles { return Rejected; }
    var d := new Draft(b);
    d.MutateProfile(k, profile);
    assert Mutated(k, b, Reprofile(profile)) == Accepted(d.Value());
    r := Finish(k, d);
  }

  /** What `applyInvalidationEvent` asks of its arguments. */
  predicate EventKnown(k: Contract, b: Book, event: nat, target: Option<nat>) {
    event in k.rules && (k.rules[event].dynamic ==> target.Some? && target.value < |b.phases|)
  }

  method InvalidateIt(k: Contract, b: Book, event: nat, target: Option<nat>) returns (r: Outcome)
    requires |b.phases| == |k.phases| && ContractOk(k)
    ensures r == Closing(k, Mutated(k, b, Invalidate(event, target)))
  {
    if !EventKnown(k, b, event, target) {
      assert Mutated(k, b, Invalidate(event, target)) == Rejected;
      return Rejected;
    }
    var d := new Draft(b);
    d.MutateEvent(k.rules[event], target);
    assert Mutated(k, b, Invalidate(event, target)) == Accepted(d.Value());
    r := Finish(k, d);
  }

  /** `mutate`, with the mutator of the operation. */
  method Mutate(k: Contract, b: Book, op: Op) returns (r: Outcome)
    requires ContractOk(k)
    ensures r == Apply(k, b, op)
  {
    if !Valid(k, b) { return Rejected; }
    match op {
      case Progress(i, inputs, decisions, operations) => r := ProgressIt(k, b, i, inputs, decisions, operations);
      case Start(i) => r := StartIt(k, b, i);
      case Seal(i, receipt) => r := SealIt(k, b, i, receipt);
      case Block(i, blockers) => r := BlockIt(k, b, i, blockers);
      case Unblock(i) => r := UnblockIt(k, b, i);
      case MarkStale(i, text, downstream) => r := StaleIt(k, b, i, text, downstream);
      case Reopen(i) => r := ReopenIt(k, b, i);
      case Cancel(i, checkpoint) => r := CancelIt(k, b, i, checkpoint);
      case Recover(i, source, checkpoint) => r := RecoverIt(k, b, i, source, checkpoint);
      case Reprofile(profile) => r := ProfileIt(k, b, profile);
      case Invalidate(event, target) => r := InvalidateIt(k, b, event, target);
    }
  }

  // ---- The operations, as their callers see them ----

  method RecordPhaseProgress(k: Contract, b: Book, i: nat, inputs: seq<nat>, decisions: seq<nat>, operations: seq<nat>)
    returns (r: Outcome)
    requires ContractOk(k)
    ensures r == Apply(k, b, Progress(i, inputs, decisions, operations))
    ensures r.Accepted? <==> && Valid(k, b) && i < |b.phases| && b.phases[i].applicable
                             && b.phases[i].status in {Ready, Active, Blocked} && Within(inputs, k.phases[i].inputs) && Within(decisions, k.phases[i].decisions)
                             && Within(operations, k.phases[i].operations)
    ensures r.Accepted? ==> Recorded(b, r.book, i, inputs, decisions, operations)
  {
    r := Mutate(k, b, Progress(i, inputs, decisions, operations));
    ProgressEffect(k, b, i, inputs, decisions, operations);
  }

  method StartThePhase(k: Contract, b: Book, i: nat) returns (r: Outcome)
    requires ContractOk(k)
    ensures r == Apply(k, b, Start(i))
    ensures r.Accepted? <==> Valid(k, b) && i < |b.phases| && b.phases[i].applicable && b.phases[i].status == Ready
    ensures r.Accepted? ==> Becomes(b, r.book, i, b.phases[i].(status := Active, source := Some(b.source)))
  {
    r := Mutate(k, b, Start(i));
    StatusEffect(k, b, Start(i));
  }

  method CompletePhase(k: Contract, b: Book, i: nat, receipt: nat) returns (r: Outcome)
    requires ContractOk(k)
    ensures r == Apply(k, b, Seal(i, receipt))
    ensures r.Accepted? <==> && Valid(k, b) && i < |b.phases| && b.phases[i].applicable && b.phases[i].status in {Ready, Active}
                             && Within(k.phases[i].inputs, b.phases[i].inputs)
                             && Within(k.phases[i].decisions, b.phases[i].decisions)
    ensures r.Accepted? ==>
              Becomes(b, r.book, i, b.phases[i].(status := Complete, gate := true, receipt := Some(receipt),
                                                 source := Some(b.source), blockers := [], reason := NoReason, checkpoint := None))
  {
    r := Mutate(k, b, Seal(i, receipt));
    SealEffect(k, b, i, receipt);
  }

  method BlockPhase(k: Contract, b: Book, i: nat, blockers: seq<nat>) returns (r: Outcome)
    requires ContractOk(k)
    ensures r == Apply(k, b, Block(i, blockers))
    ensures r.Accepted? <==> && Valid(k, b) && i < |b.phases| && b.phases[i].applicable && b.phases[i].status in {Ready, Active}
                             && blockers != [] && Distinct(blockers)
    ensures r.Accepted? ==> Becomes(b, r.book, i, b.phases[i].(status := Blocked, blockers := blockers))
  {
    r := Mutate(k, b, Block(i, blockers));
    StatusEffect(k, b, Block(i, blockers));
  }

  method UnblockPhase(k: Contract, b: Book, i: nat) returns (r: Outcome)
    requires ContractOk(k)
    ensures r == Apply(k, b, Unblock(i))
    ensures r.Accepted? <==> Valid(k, b) && i < |b.phases| && b.phases[i].applicable && b.phases[i].status == Blocked
    ensures r.Accepted? ==> Becomes(b, r.book, i, b.phases[i].(status := Ready, blockers := []))
  {
    r := Mutate(k, b, Unblock(i));
    StatusEffect(k, b, Unblock(i));
  }

  method CancelPhase(k: Contract, b: Book, i: nat, checkpoint: nat) returns (r: Outcome)
    requires ContractOk(k)
    ensures r == Apply(k, b, Cancel(i, checkpoint))
    ensures r.Accepted? <==> && Valid(k, b) && i < |b.phases| && b.phases[i].applicable
                             && b.phases[i].status in {Ready, Active, Blocked, Stale, RecoveryRequired}
    ensures r.Accepted? ==>
              Becomes(b, r.book, i, b.phases[i].(status := Cancelled, checkpoint := Some(checkpoint), blockers := []))
  {
    r := Mutate(k, b, Cancel(i, checkpoint));
    StatusEffect(k, b, Cancel(i, checkpoint));
  }

  method RecoverThePhase(k: Contract, b: Book, i: nat, source: nat, checkpoint: nat) returns (r: Outcome)
    requires ContractOk(k)
    ensures r == Apply(k, b, Recover(i, source, checkpoint))
    ensures r.Accepted? <==> && Valid(k, b) && i < |b.phases| && b.phases[i].applicable
                             && b.phases[i].status in {Cancelled, RecoveryRequired, Stale} && source == b.source
                             && (b.phases[i].checkpoint == None || b.phases[i].checkpoint == Some(checkpoint))
    ensures r.Accepted? ==>
              Becomes(b, r.book, i, b.phases[i].(status := Ready, checkpoint := None, reason := NoReason, blockers := []))
  {
    r := Mutate(k, b, Recover(i, source, checkpoint));
    RecoverEffect(k, b, i, source, checkpoint);
  }

  method MarkPhaseStale(k: Contract, b: Book, i: nat, text: nat, downstream: bool) returns (r: Outcome)
    requires ContractOk(k)
    ensures r == Apply(k, b, MarkStale(i, text, downstream))
    ensures r.Accepted? <==> Valid(k, b) && i < |b.phases|
    ensures r.Accepted? ==> StaledFrom(b, r.book, i, downstream, Given(text))
  {
    r := Mutate(k, b, MarkStale(i, text, downstream));
    StaleEffect(k, b, i, text, downstream);
  }

  method ReopenPhase(k: Contract, b: Book, i: nat) returns (r: Outcome)
    requires ContractOk(k)
    ensures r == Apply(k, b, Reopen(i))
    ensures r.Accepted? <==> && Valid(k, b) && i < |b.phases| && k.phases[i].reopenable && b.phases[i].applicable
                             && b.phases[i].status in {Complete, Stale, Blocked, Cancelled, RecoveryRequired}
    ensures r.Accepted? ==> ReopenedAt(b, r.book, i)
  {
    r := Mutate(k, b, Reopen(i));
    ReopenEffect(k, b, i);
  }

  method ReprofileLifecycle(k: Contract, b: Book, profile: set<nat>) returns (r: Outcome)
    requires ContractOk(k)
    ensures r == Apply(k, b, Reprofile(profile))
    ensures r.Accepted? <==> Valid(k, b) && profile in k.profiles
    ensures r.Accepted? ==> Profiled(k, b, r.book, profile)
  {
    r := Mutate(k, b, Reprofile(profile));
    ProfileEffect(k, b, profile);
  }

  method ApplyInvalidationEvent(k: Contract, b: Book, event: nat, target: Option<nat>) returns (r: Outcome)
    requires ContractOk(k)
    ensures r == Apply(k, b, Invalidate(event, target))
    ensures r.Accepted? <==> && Valid(k, b) && event in k.rules
                             && (k.rules[event].dynamic ==> target.Some? && target.value < |b.phases|)
    ensures r.Accepted? ==> Invalidated(b, r.book, k.rules[event], target)
  {
    r := Mutate(k, b, Invalidate(event, target));
    InvalidateEffect(k, b, event, target);
  }

  /** `createLifecycleState` */
  method CreateLifecycleState(k: Contract, source: nat, profile: set<nat>) returns (r: Outcome)
    ensures r == Created(k, source, profile)
    ensures r.Accepted? <==> profile in k.profiles
    ensures r.Accepted? ==> NewBook(k, r.book, source, profile)
  {
    if profile !in k.profiles { return Rejected; }
    var d := new Draft(Book(1, source, profile, [], ActiveBook));
    var i := 0;
    while i < |k.phases|
      invariant i <= |k.phases| == |k.phases| && |d.phases| == i
      invariant d.Value() == Book(1, source, profile, d.phases, ActiveBook)
      invariant forall j :: 0 <= j < i ==> d.phases[j] == Template(k.phases[j], profile)
    {
      d.phases := d.phases + [Template(k.phases[i], profile)];
      i := i + 1;
    }
    assert d.phases == seq(|k.phases|, i requires 0 <= i < |k.phases| => Template(k.phases[i], profile));
    d.RefreshReadiness();
    d.status := DerivedStatus(d.phases);
    r := if Valid(k, d.Value()) then Accepted(d.Value()) else Rejected;
    CreateEffect(k, source, profile);
  }
}
