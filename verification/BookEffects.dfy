/** What the operations of the Book lifecycle do, phase by phase: when each is accepted, what the phase that it is about
    becomes, which later phases it gives up, and that nothing else changes; and what the calculated next step means. */
module BookEffects {
  import opened Wrappers
  import opened BookSpec
  import opened BookSafety

  // ---- What every accepted operation has in common ----

  /** The book is one version on, of the same source, and its status is up to date. */
  ghost predicate Closes(b: Book, c: Book) {
    && c.version == b.version + 1 && c.source == b.source && |c.phases| == |b.phases|
    && Settled(c.phases) && StatusIs(c.phases, c.status)
  }

  /** The first phase that is not done. */
  ghost predicate First(ph: seq<PhaseState>, j: nat) {
    j < |ph| && ph[j].applicable && ph[j].status != Complete
    && forall x :: 0 <= x < j ==> ph[x].applicable ==> ph[x].status == Complete
  }

  /** The phase is as given, except that it is READY if it waited and is now the first open one. */
  ghost predicate Kept(s: PhaseState, c: Book, j: nat)
    requires j < |c.phases|
  {
    c.phases[j] == if s.status == Pending && First(c.phases, j) then s.(status := Ready) else s
  }

  lemma FirstIsFrontier(ph: seq<PhaseState>, j: nat)
    ensures First(ph, j) <==> j == Frontier(ph, 0) < |ph|
  { if First(ph, j) { FrontierIs(ph, 0, j); } }

  /** Closing a draft: every phase is kept. */
  lemma ClosedKeeps(b: Book, ph: seq<PhaseState>)
    requires |ph| == |b.phases|
    ensures var c := Closed(b.(phases := ph)); Closes(b, c) && forall j :: 0 <= j < |ph| ==> Kept(ph[j], c, j)
  {
    var c := Closed(b.(phases := ph));
    RefreshedAtFrontier(ph);
    RefreshedSettles(ph);
    StatusMeans(c.phases);
    forall j | 0 <= j < |ph| ensures Kept(ph[j], c, j) { FirstIsFrontier(c.phases, j); }
  }

  // ---- Giving a phase up ----

  /** A phase that was begun and belongs to the profile. */
  predicate Begun(s: PhaseState) { s.applicable && s.status != Pending && s.status != NotApplicable }

  /** The receipts that count no longer: those from before, and that of the completion that is given up. */
  predicate KeepsReceipts(s: PhaseState, t: PhaseState) {
    t.superseded == if s.status == Complete && s.receipt.Some? && s.receipt.value !in s.superseded
                    then s.superseded + [s.receipt.value] else s.superseded
  }

  /** The phase is STALE for this reason, without gate, receipt and blockers; its record is kept. */
  predicate GivenUp(s: PhaseState, t: PhaseState, reason: Reason) {
    && t.status == Stale && t.reason == reason && !t.gate && t.receipt.None? && t.blockers == [] && KeepsReceipts(s, t)
    && t == s.(status := t.status, reason := t.reason, gate := t.gate, receipt := t.receipt, blockers := t.blockers,
               superseded := t.superseded)
  }

  /** What becomes of a phase that may be given up. */
  ghost predicate MayGiveUp(s: PhaseState, hit: bool, reason: Reason, c: Book, j: nat)
    requires j < |c.phases|
  {
    if hit && Begun(s) then GivenUp(s, c.phases[j], reason) else Kept(s, c, j)
  }

  lemma StaledGivesUp(s: PhaseState, reason: Reason)
    ensures if Begun(s) then GivenUp(s, Staled(s, reason), reason) else Staled(s, reason) == s
  { }

  lemma StaledInGivesUp(b: Book, ph: seq<PhaseState>, targets: set<nat>, reason: Reason, j: nat)
    requires |ph| == |b.phases| && j < |ph|
    ensures var c := Closed(b.(phases := StaledIn(ph, targets, reason))); MayGiveUp(ph[j], j in targets, reason, c, j)
  {
    ClosedKeeps(b, StaledIn(ph, targets, reason));
    StaledGivesUp(ph[j], reason);
  }

  // ---- markPhaseStale, applyInvalidationEvent ----

  /** The phase, or it and all that follow, are given up. */
  ghost predicate StaledFrom(b: Book, c: Book, i: nat, downstream: bool, reason: Reason) {
    && Closes(b, c) && c.profile == b.profile
    && forall j: nat {:trigger c.phases[j]} :: j < |c.phases| ==>
         MayGiveUp(b.phases[j], if downstream then i <= j else i == j, reason, c, j)
  }

  lemma StaledPhases(b: Book, i: nat, text: nat, downstream: bool)
    requires i < |b.phases|
    ensures StaledFrom(b, Closed(StaledBook(b, i, text, downstream)), i, downstream, Given(text))
  {
    var targets := if downstream then From(i, |b.phases|) else {i};
    ClosedKeeps(b, StaledIn(b.phases, targets, Given(text)));
    forall j: nat | j < |b.phases|
      ensures MayGiveUp(b.phases[j], j in targets, Given(text), Closed(StaledBook(b, i, text, downstream)), j)
    {
      StaledInGivesUp(b, b.phases, targets, Given(text), j);
    }
  }

  lemma StaleAccepted(k: Contract, b: Book, i: nat, text: nat, downstream: bool)
    requires |b.phases| == |k.phases|
    ensures var r := Mutated(k, b, MarkStale(i, text, downstream));
            (r.Accepted? <==> i < |b.phases|) && (r.Accepted? ==> r.book == StaledBook(b, i, text, downstream))
  { }

  lemma StaleEffect(k: Contract, b: Book, i: nat, text: nat, downstream: bool)
    requires ContractOk(k)
    ensures var r := Apply(k, b, MarkStale(i, text, downstream));
            && (r.Accepted? <==> Valid(k, b) && i < |b.phases|)
            && (r.Accepted? ==> StaledFrom(b, r.book, i, downstream, Given(text)))
  {
    if Valid(k, b) {
      ClosingNeverFails(k, b, MarkStale(i, text, downstream));
      StaleAccepted(k, b, i, text, downstream);
      if i < |b.phases| { StaledPhases(b, i, text, downstream); }
    }
  }

  /** The event names phases to give up, or the phase from which on all are. */
  ghost predicate Invalidated(b: Book, c: Book, rule: Rule, target: Option<nat>) {
    && Closes(b, c) && c.profile == b.profile
    && forall j: nat {:trigger c.phases[j]} :: j < |c.phases| ==>
         var hit := if rule.dynamic then target.Some? && target.value <= j else j in rule.targets;
         MayGiveUp(b.phases[j], hit, Given(rule.reason), c, j)
  }

  lemma InvalidatedPhases(b: Book, rule: Rule, target: Option<nat>)
    ensures Invalidated(b, Closed(InvalidatedBook(b, rule, target)), rule, target)
  {
    var targets := InvalidationTargets(rule, target, |b.phases|);
    ClosedKeeps(b, StaledIn(b.phases, targets, Given(rule.reason)));
    forall j: nat | j < |b.phases|
      ensures MayGiveUp(b.phases[j], j in targets, Given(rule.reason), Closed(InvalidatedBook(b, rule, target)), j)
    {
      StaledInGivesUp(b, b.phases, targets, Given(rule.reason), j);
    }
  }

  lemma InvalidateAccepted(k: Contract, b: Book, event: nat, target: Option<nat>)
    requires |b.phases| == |k.phases|
    ensures var r := Mutated(k, b, Invalidate(event, target));
            && (r.Accepted? <==> event in k.rules && (k.rules[event].dynamic ==> target.Some? && target.value < |b.phases|))
            && (r.Accepted? ==> r.book == InvalidatedBook(b, k.rules[event], target))
  { }

  lemma InvalidateEffect(k: Contract, b: Book, event: nat, target: Option<nat>)
    requires ContractOk(k)
    ensures var r := Apply(k, b, Invalidate(event, target));
            && (r.Accepted? <==> Valid(k, b) && event in k.rules
                                 && (k.rules[event].dynamic ==> target.Some? && target.value < |b.phases|))
            && (r.Accepted? ==> Invalidated(b, r.book, k.rules[event], target))
  {
    if Valid(k, b) {
      ClosingNeverFails(k, b, Invalidate(event, target));
      InvalidateAccepted(k, b, event, target);
      if event in k.rules { InvalidatedPhases(b, k.rules[event], target); }
    }
  }

  // ---- reopenPhase ----

  /** The phase is READY once more, with one reopening more and its completion given up; its record is kept. */
  predicate ReadyAgain(s: PhaseState, t: PhaseState) {
    && t.status == Ready && !t.gate && t.receipt.None? && t.blockers == [] && t.reason.NoReason? && t.checkpoint.None?
    && t.reopens == s.reopens + 1 && KeepsReceipts(s, t)
    && t.applicable == s.applicable && t.source == s.source && t.inputs == s.inputs && t.decisions == s.decisions
    && t.operations == s.operations
  }

  /** The phase is reopened, everything after it that was begun is given up, and everything before it is kept. */
  ghost predicate ReopenedAt(b: Book, c: Book, i: nat) {
    && Closes(b, c) && c.profile == b.profile && i < |c.phases| && ReadyAgain(b.phases[i], c.phases[i])
    && (forall j: nat {:trigger c.phases[j]} :: j < i ==> Kept(b.phases[j], c, j))
    && forall j: nat {:trigger c.phases[j]} :: i < j < |c.phases| ==> MayGiveUp(b.phases[j], true, UpstreamReopen(i), c, j)
  }

  lemma ReopenedPhase(b: Book, i: nat, j: nat)
    requires i < |b.phases| && j < |b.phases|
    ensures var c := Closed(ReopenedBook(b, i));
            && (j < i ==> Kept(b.phases[j], c, j)) && (j == i ==> ReadyAgain(b.phases[j], c.phases[j]))
            && (i < j ==> MayGiveUp(b.phases[j], true, UpstreamReopen(i), c, j))
  { StaledInGivesUp(b, b.phases[i := Reopened(b.phases[i])], From(i + 1, |b.phases|), UpstreamReopen(i), j); }

  lemma ReopenedPhases(b: Book, i: nat)
    requires i < |b.phases|
    ensures ReopenedAt(b, Closed(ReopenedBook(b, i)), i)
  {
    var c := Closed(ReopenedBook(b, i));
    ClosedKeeps(b, ReopenedBook(b, i).phases);
    ReopenedPhase(b, i, i);
    forall j: nat | j < i ensures Kept(b.phases[j], c, j) { ReopenedPhase(b, i, j); }
    forall j: nat | i < j < |c.phases| ensures MayGiveUp(b.phases[j], true, UpstreamReopen(i), c, j) { ReopenedPhase(b, i, j); }
  }

  lemma ReopenAccepted(k: Contract, b: Book, i: nat)
    requires |b.phases| == |k.phases|
    ensures Mutated(k, b, Reopen(i)).Accepted? <==>
              && i < |b.phases| && k.phases[i].reopenable && b.phases[i].applicable
              && b.phases[i].status in {Complete, Stale, Blocked, Cancelled, RecoveryRequired}
    ensures Mutated(k, b, Reopen(i)).Accepted? ==> Mutated(k, b, Reopen(i)).book == ReopenedBook(b, i)
  { }

  lemma ReopenEffect(k: Contract, b: Book, i: nat)
    requires ContractOk(k)
    ensures var r := Apply(k, b, Reopen(i));
            && (r.Accepted? <==> Valid(k, b) && i < |b.phases| && k.phases[i].reopenable && b.phases[i].applicable
                                 && b.phases[i].status in {Complete, Stale, Blocked, Cancelled, RecoveryRequired})
            && (r.Accepted? ==> ReopenedAt(b, r.book, i))
  {
    if Valid(k, b) {
      ClosingNeverFails(k, b, Reopen(i));
      ReopenAccepted(k, b, i);
      if i < |b.phases| { ReopenedPhases(b, i); }
    }
  }

  // ---- reprofileLifecycle ----

  predicate Belongs(p: Phase, profile: set<nat>) { p.flag.None? || p.flag.value in profile }

  /** A phase that the new profile adds. */
  predicate Added(k: Contract, was: set<nat>, now: set<nat>, j: nat) {
    j < |k.phases| && !Belongs(k.phases[j], was) && Belongs(k.phases[j], now)
  }

  /** A phase that the profile drops: it is NOT_APPLICABLE and its completion given up; its record is kept. */
  predicate Dropped(s: PhaseState, t: PhaseState) {
    && !t.applicable && t.status == NotApplicable && !t.gate && t.receipt.None? && t.blockers == [] && t.reason.NoReason?
    && t.checkpoint.None? && KeepsReceipts(s, t) && t.source == s.source && t.inputs == s.inputs && t.decisions == s.decisions
    && t.operations == s.operations && t.reopens == s.reopens
  }

  /** An added phase waits, a dropped one is dropped; a phase of both profiles is given up if a phase before it was added. */
  ghost predicate ProfiledAs(k: Contract, b: Book, c: Book, profile: set<nat>, j: nat)
    requires j < |b.phases| == |c.phases| == |k.phases|
  {
    var s := b.phases[j];
    if Added(k, b.profile, profile, j) then
      Kept(s.(applicable := true, status := Pending, reason := NoReason, checkpoint := None), c, j)
    else if Belongs(k.phases[j], b.profile) && !Belongs(k.phases[j], profile) then Dropped(s, c.phases[j])
    else MayGiveUp(s, exists i: nat :: i < j && Added(k, b.profile, profile, i), ProfileChanged, c, j)
  }

  lemma AfterFirstAdded(k: Contract, was: set<nat>, now: set<nat>, j: nat)
    requires j < |k.phases|
    ensures j in From(FirstNewly(k, was, now, 0) + 1, |k.phases|) <==> exists i: nat :: i < j && Added(k, was, now, i)
  {
    var first := FirstNewly(k, was, now, 0);
    if first < j { assert Added(k, was, now, first); }
    forall i: nat | i < first ensures !Added(k, was, now, i) { }
  }

  /** What a phase becomes before the ones after the first added phase are given up. */
  lemma ReprofiledState(k: Contract, b: Book, profile: set<nat>, j: nat)
    requires |b.phases| == |k.phases| && j < |b.phases| && PhaseOk(k.phases[j], b.phases[j], b.source, b.profile)
    ensures var s, t := b.phases[j], ReprofiledPhases(k, b, profile)[j];
            if Added(k, b.profile, profile, j) then
              t == s.(applicable := true, status := Pending, reason := NoReason, checkpoint := None)
            else if Belongs(k.phases[j], b.profile) && !Belongs(k.phases[j], profile) then Dropped(s, t)
            else t == s
  { }

  /** The same of the closed book, before `targets` is read as what follows an added phase. */
  lemma ProfiledKept(k: Contract, b: Book, profile: set<nat>, targets: set<nat>, j: nat)
    requires |b.phases| == |k.phases| && j < |b.phases| && PhaseOk(k.phases[j], b.phases[j], b.source, b.profile)
    ensures var c := Closed(b.(profile := profile, phases := StaledIn(ReprofiledPhases(k, b, profile), targets, ProfileChanged)));
            var s := b.phases[j];
            if Added(k, b.profile, profile, j) then
              Kept(s.(applicable := true, status := Pending, reason := NoReason, checkpoint := None), c, j)
            else if Belongs(k.phases[j], b.profile) && !Belongs(k.phases[j], profile) then Dropped(s, c.phases[j])
            else MayGiveUp(s, j in targets, ProfileChanged, c, j)
  {
    ReprofiledState(k, b, profile, j);
    StaledInGivesUp(b.(profile := profile), ReprofiledPhases(k, b, profile), targets, ProfileChanged, j);
  }

  lemma ProfilePhase(k: Contract, b: Book, profile: set<nat>, j: nat)
    requires |b.phases| == |k.phases| && j < |b.phases| && PhaseOk(k.phases[j], b.phases[j], b.source, b.profile)
    ensures ProfiledAs(k, b, Closed(ReprofiledBook(k, b, profile)), profile, j)
  {
    ProfiledKept(k, b, profile, From(FirstNewly(k, b.profile, profile, 0) + 1, |b.phases|), j);
    AfterFirstAdded(k, b.profile, profile, j);
  }

  ghost predicate Profiled(k: Contract, b: Book, c: Book, profile: set<nat>) {
    && Closes(b, c) && c.profile == profile && |c.phases| == |k.phases|
    && forall j: nat {:trigger ProfiledAs(k, b, c, profile, j)} :: j < |c.phases| ==> ProfiledAs(k, b, c, profile, j)
  }

  lemma ProfiledPhases(k: Contract, b: Book, profile: set<nat>)
    requires Valid(k, b)
    ensures Profiled(k, b, Closed(ReprofiledBook(k, b, profile)), profile)
  {
    ClosedKeeps(b.(profile := profile), ReprofiledBook(k, b, profile).phases);
    forall j: nat | j < |b.phases| ensures ProfiledAs(k, b, Closed(ReprofiledBook(k, b, profile)), profile, j) {
      assert PhaseOk(k.phases[j], b.phases[j], b.source, b.profile);
      ProfilePhase(k, b, profile, j);
    }
  }

  lemma ProfileAccepted(k: Contract, b: Book, profile: set<nat>)
    requires |b.phases| == |k.phases|
    ensures var r := Mutated(k, b, Reprofile(profile));
            (r.Accepted? <==> profile in k.profiles) && (r.Accepted? ==> r.book == ReprofiledBook(k, b, profile))
  { }

  lemma ProfileEffect(k: Contract, b: Book, profile: set<nat>)
    requires ContractOk(k)
    ensures var r := Apply(k, b, Reprofile(profile));
            && (r.Accepted? <==> Valid(k, b) && profile in k.profiles)
            && (r.Accepted? ==> Profiled(k, b, r.book, profile))
  {
    if Valid(k, b) {
      ClosingNeverFails(k, b, Reprofile(profile));
      ProfileAccepted(k, b, profile);
      ProfiledPhases(k, b, profile);
    }
  }

  // ---- recordPhaseProgress ----

  /** The record goes on: what was in it stays in place, exactly the given values are added, and none is in it twice. */
  ghost predicate GoesOn(old': seq<nat>, given: seq<nat>, new': seq<nat>) {
    old' <= new' && Distinct(new') && forall x :: x in new' <==> x in old' || x in given
  }

  lemma {:induction false} AddAllExtends(s: seq<nat>, more: seq<nat>)
    ensures s <= AddAll(s, more)
    decreases |more|
  { if more != [] { AddAllExtends(Push(s, more[0]), more[1..]); } }

  ghost predicate Recorded(b: Book, c: Book, i: nat, inputs: seq<nat>, decisions: seq<nat>, operations: seq<nat>) {
    && OnlyPhase(b, c, i) && i < |b.phases|
    && var s, t := b.phases[i], c.phases[i];
    && GoesOn(s.inputs, inputs, t.inputs) && GoesOn(s.decisions, decisions, t.decisions)
    && GoesOn(s.operations, operations, t.operations)
    && t == s.(inputs := t.inputs, decisions := t.decisions, operations := t.operations)
  }

  lemma ProgressPhase(k: Contract, b: Book, i: nat, inputs: seq<nat>, decisions: seq<nat>, operations: seq<nat>)
    requires i < |b.phases| == |k.phases| && PhaseOk(k.phases[i], b.phases[i], b.source, b.profile) && b.phases[i].status != Pending
    requires Within(inputs, k.phases[i].inputs) && Within(decisions, k.phases[i].decisions) && Within(operations, k.phases[i].operations)
    ensures var s := b.phases[i];
            var t := s.(inputs := AddAll(s.inputs, inputs), decisions := AddAll(s.decisions, decisions),
                        operations := AddAll(s.operations, operations));
            Recorded(b, Closed(b.(phases := b.phases[i := t])), i, inputs, decisions, operations)
  {
    var p, s := k.phases[i], b.phases[i];
    AddAllKeeps(s.inputs, inputs, p.inputs);
    AddAllKeeps(s.decisions, decisions, p.decisions);
    AddAllKeeps(s.operations, operations, p.operations);
    AddAllExtends(s.inputs, inputs);
    AddAllExtends(s.decisions, decisions);
    AddAllExtends(s.operations, operations);
    OnePhaseChanged(b, i, s.(inputs := AddAll(s.inputs, inputs), decisions := AddAll(s.decisions, decisions),
                             operations := AddAll(s.operations, operations)));
  }

  lemma ProgressAccepted(k: Contract, b: Book, i: nat, inputs: seq<nat>, decisions: seq<nat>, operations: seq<nat>)
    requires |b.phases| == |k.phases|
    ensures var r := Mutated(k, b, Progress(i, inputs, decisions, operations));
            && (r.Accepted? <==> && i < |b.phases| && b.phases[i].applicable && b.phases[i].status in {Ready, Active, Blocked}
                                 && Within(inputs, k.phases[i].inputs) && Within(decisions, k.phases[i].decisions)
                                 && Within(operations, k.phases[i].operations))
            && (r.Accepted? ==>
                  var s := b.phases[i];
                  var t := s.(inputs := AddAll(s.inputs, inputs), decisions := AddAll(s.decisions, decisions),
                              operations := AddAll(s.operations, operations));
                  r.book == b.(phases := b.phases[i := t]))
  { }

  lemma ProgressEffect(k: Contract, b: Book, i: nat, inputs: seq<nat>, decisions: seq<nat>, operations: seq<nat>)
    requires ContractOk(k)
    ensures var r := Apply(k, b, Progress(i, inputs, decisions, operations));
            && (r.Accepted? <==> Valid(k, b) && i < |b.phases| && b.phases[i].applicable
                                 && b.phases[i].status in {Ready, Active, Blocked} && Within(inputs, k.phases[i].inputs) && Within(decisions, k.phases[i].decisions)
                                 && Within(operations, k.phases[i].operations))
            && (r.Accepted? ==> Recorded(b, r.book, i, inputs, decisions, operations))
  {
    if Valid(k, b) {
      ClosingNeverFails(k, b, Progress(i, inputs, decisions, operations));
      ProgressAccepted(k, b, i, inputs, decisions, operations);
      if Mutated(k, b, Progress(i, inputs, decisions, operations)).Accepted? {
        assert PhaseOk(k.phases[i], b.phases[i], b.source, b.profile);
        ProgressPhase(k, b, i, inputs, decisions, operations);
      }
    }
  }

  // ---- createLifecycleState ----

  /** A phase that nobody has worked on. */
  predicate Untouched(s: PhaseState) {
    && s.source.None? && s.inputs == [] && s.decisions == [] && s.operations == [] && !s.gate && s.receipt.None?
    && s.superseded == [] && s.blockers == [] && s.reason.NoReason? && s.checkpoint.None? && s.reopens == 0
  }

  /** The first version: the phases of the profile wait, the first of them is READY, and nobody has worked on any. */
  ghost predicate NewBook(k: Contract, b: Book, source: nat, profile: set<nat>) {
    && b.version == 1 && b.source == source && b.profile == profile && |b.phases| == |k.phases| && StatusIs(b.phases, b.status)
    && forall j: nat {:trigger b.phases[j]} :: j < |b.phases| ==>
         && Untouched(b.phases[j]) && b.phases[j].applicable == Belongs(k.phases[j], profile)
         && b.phases[j].status == (if !Belongs(k.phases[j], profile) then NotApplicable
                                   else if First(b.phases, j) then Ready else Pending)
  }

  /** The phases of a new book, before the first of them is READY. */
  function Fresh(k: Contract, profile: set<nat>): (r: seq<PhaseState>)
    ensures |r| == |k.phases|
  {
    seq(|k.phases|, i requires 0 <= i < |k.phases| => Template(k.phases[i], profile))
  }

  lemma FreshOk(k: Contract, source: nat, profile: set<nat>)
    ensures PhasesOk(k, source, profile, Refreshed(Fresh(k, profile)))
  {
    assert PhasesOk(k, source, profile, Fresh(k, profile));
    RefreshedOk(k, source, profile, Fresh(k, profile));
  }

  lemma FreshKept(k: Contract, profile: set<nat>, j: nat)
    requires j < |k.phases|
    ensures var ph := Refreshed(Fresh(k, profile));
            && Untouched(ph[j]) && ph[j].applicable == Belongs(k.phases[j], profile)
            && ph[j].status == (if !Belongs(k.phases[j], profile) then NotApplicable else if First(ph, j) then Ready else Pending)
  {
    RefreshedAtFrontier(Fresh(k, profile));
    FirstIsFrontier(Refreshed(Fresh(k, profile)), j);
  }

  lemma CreateEffect(k: Contract, source: nat, profile: set<nat>)
    ensures Created(k, source, profile).Accepted? <==> profile in k.profiles
    ensures profile in k.profiles ==> NewBook(k, Created(k, source, profile).book, source, profile)
  {
    FreshOk(k, source, profile);
    StatusMeans(Refreshed(Fresh(k, profile)));
    if profile in k.profiles {
      var ph := Refreshed(Fresh(k, profile));
      assert Created(k, source, profile) == Accepted(Book(1, source, profile, ph, DerivedStatus(ph)));
      forall j: nat | j < |ph|
        ensures Untouched(ph[j]) && ph[j].applicable == Belongs(k.phases[j], profile)
        ensures ph[j].status == (if !Belongs(k.phases[j], profile) then NotApplicable else if First(ph, j) then Ready else Pending)
      {
        FreshKept(k, profile, j);
      }
    }
  }

  // ---- calculateNextStep ----

  /** The first of the required values that is not there. */
  predicate FirstLacking(required: seq<nat>, have: seq<nat>, v: nat) {
    exists x: nat :: x < |required| && required[x] == v && v !in have && forall y :: 0 <= y < x ==> required[y] in have
  }

  lemma LackingIs(required: seq<nat>, have: seq<nat>)
    requires Distinct(required)
    ensures Within(required, have) <==> FirstMissing(required, have) == |required|
    ensures !Within(required, have) ==>
              FirstMissing(required, have) < |required| && FirstLacking(required, have, required[FirstMissing(required, have)])
  {
    var r := FirstMissing(required, have);
    if r == |required| { NothingMissing(required, have); }
    else { assert required[r] in required; }
  }

  /** The step of the first open phase: what stands in its way comes first, then the first input that is missing, then the
      first decision, then its start, then the first operation that is missing, and only then its completion. */
  ghost predicate StepMeans(p: Phase, s: PhaseState, i: nat, step: Step) {
    var free := s.status == Pending || s.status == Ready || s.status == Active;
    var fed := free && Within(p.inputs, s.inputs);
    var decided := fed && Within(p.decisions, s.decisions);
    match step
    case ResolveBlocker(x) => x == i && s.status == Blocked
    case RevalidateOrReopen(x) => x == i && s.status == Stale
    case RecoverPhase(x) => x == i && (s.status == Cancelled || s.status == RecoveryRequired)
    case ProvideInput(x, v) => x == i && free && FirstLacking(p.inputs, s.inputs, v)
    case ResolveDecision(x, v) => x == i && fed && FirstLacking(p.decisions, s.decisions, v)
    case WaitForPrerequisite(x) => x == i && decided && s.status == Pending
    case StartPhase(x) => x == i && decided && s.status == Ready
    case ExecuteOperation(x, v) => x == i && decided && s.status == Active && FirstLacking(p.operations, s.operations, v)
    case SealPhaseCompletion(x) => x == i && decided && s.status == Active && Within(p.operations, s.operations)
    case LifecycleComplete => false
  }

  lemma StepOfMeans(p: Phase, s: PhaseState, i: nat)
    requires Distinct(p.inputs) && Distinct(p.decisions) && Distinct(p.operations)
    requires s.status != Complete && s.status != NotApplicable
    ensures StepMeans(p, s, i, StepOf(p, s, i))
  {
    LackingIs(p.inputs, s.inputs);
    LackingIs(p.decisions, s.decisions);
    LackingIs(p.operations, s.operations);
  }

  /** The calculated step is the one that the first open phase asks for; and the book is complete exactly if none is open. */
  lemma NextStepMeans(k: Contract, b: Book)
    requires ContractOk(k) && Valid(k, b)
    ensures NextStep(k, b).LifecycleComplete? <==> forall j :: 0 <= j < |b.phases| ==> Done(b.phases[j])
    ensures forall i: nat :: First(b.phases, i) ==> StepMeans(k.phases[i], b.phases[i], i, NextStep(k, b))
  {
    forall i: nat | First(b.phases, i) ensures StepMeans(k.phases[i], b.phases[i], i, NextStep(k, b)) {
      FirstIsFrontier(b.phases, i);
      assert PhaseOk(k.phases[i], b.phases[i], b.source, b.profile);
      StepOfMeans(k.phases[i], b.phases[i], i);
    }
  }
}
