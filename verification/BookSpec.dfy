/** The Book lifecycle (system-master/book-system/book-lifecycle-state-machine.js) as functions on its state. Phases
    are numbered in the order of the contract, and there may be any number of them. */
module BookSpec {
  import opened Wrappers

  datatype PhaseStatus =
    | NotApplicable | Pending | Ready | Active | Blocked | Stale | RecoveryRequired | Complete | Cancelled

  datatype Reason = NoReason | Given(text: nat) | UpstreamReopen(phase: nat) | ProfileChanged

  /** A phase is mandatory or belongs to a flag of the profile. */
  datatype Phase = Phase(flag: Option<nat>, inputs: seq<nat>, decisions: seq<nat>, operations: seq<nat>, reopenable: bool)

  datatype Rule = Rule(dynamic: bool, targets: seq<nat>, reason: nat)

  /** `profiles` are the profiles that `validateProfile` accepts, each the set of its true flags. */
  datatype Contract = Contract(phases: seq<Phase>, profiles: set<set<nat>>, rules: map<nat, Rule>)

  datatype PhaseState = PhaseState(
    applicable: bool, status: PhaseStatus, source: Option<nat>, inputs: seq<nat>, decisions: seq<nat>, operations: seq<nat>,
    gate: bool, receipt: Option<nat>, superseded: seq<nat>, blockers: seq<nat>, reason: Reason, checkpoint: Option<nat>, reopens: nat)

  datatype BookStatus = ActiveBook | StaleBook | BlockedBook | CancelledBook | CompleteBook

  datatype Book = Book(version: nat, source: nat, profile: set<nat>, phases: seq<PhaseState>, status: BookStatus)

  datatype Outcome = Accepted(book: Book) | Rejected

  predicate Within(s: seq<nat>, t: seq<nat>) { forall x :: x in s ==> x in t }

  /** `validateContract`, and what the invalidation rules refer to. */
  predicate ContractOk(k: Contract) {
    && (forall i :: 0 <= i < |k.phases| ==>
          Distinct(k.phases[i].inputs) && Distinct(k.phases[i].decisions) && Distinct(k.phases[i].operations))
    && (forall e :: e in k.rules ==> forall x :: x in k.rules[e].targets ==> x < |k.phases|)
  }

  predicate IsApplicable(p: Phase, profile: set<nat>) { p.flag.None? || p.flag.value in profile }

  // ---- validateLifecycleState ----

  predicate PhaseOk(p: Phase, s: PhaseState, source: nat, profile: set<nat>) {
    && s.applicable == IsApplicable(p, profile)
    && (s.status == NotApplicable <==> !s.applicable)
    && Distinct(s.inputs) && Distinct(s.decisions) && Distinct(s.operations) && Distinct(s.superseded) && Distinct(s.blockers)
    && Within(s.inputs, p.inputs) && Within(s.decisions, p.decisions) && Within(s.operations, p.operations)
    && (s.status == Complete ==>
          s.gate && s.receipt.Some? && s.source == Some(source) && Within(p.inputs, s.inputs) && Within(p.decisions, s.decisions))
    && (s.status == Blocked ==> s.blockers != [])
    && (s.status == Cancelled || s.status == RecoveryRequired ==> s.checkpoint.Some?)
    && (s.status == Stale ==> !s.reason.NoReason?)
  }

  predicate Done(s: PhaseState) { s.applicable ==> s.status == Complete }

  predicate HasStatus(ph: seq<PhaseState>, t: PhaseStatus) {
    exists i :: 0 <= i < |ph| && ph[i].applicable && ph[i].status == t
  }

  /** `deriveLifecycleStatus` */
  function DerivedStatus(ph: seq<PhaseState>): BookStatus {
    if forall i :: 0 <= i < |ph| ==> Done(ph[i]) then CompleteBook
    else if HasStatus(ph, Stale) || HasStatus(ph, RecoveryRequired) then StaleBook
    else if HasStatus(ph, Blocked) then BlockedBook
    else if HasStatus(ph, Cancelled) then CancelledBook
    else ActiveBook
  }

  predicate PhasesOk(k: Contract, source: nat, profile: set<nat>, ph: seq<PhaseState>) {
    && |ph| == |k.phases|
    && forall i {:trigger ph[i]} :: 0 <= i < |ph| ==> PhaseOk(k.phases[i], ph[i], source, profile)
  }

  predicate Valid(k: Contract, b: Book) {
    b.version >= 1 && b.profile in k.profiles && PhasesOk(k, b.source, b.profile, b.phases) && b.status == DerivedStatus(b.phases)
  }

  // ---- refreshReadiness ----

  predicate PrerequisitesMet(ph: seq<PhaseState>, i: nat) { forall j :: 0 <= j < i && j < |ph| ==> Done(ph[j]) }

  predicate Waits(s: PhaseState) { s.applicable && s.status == Pending }

  /** The first waiting phase at or after `i`, or the number of phases. */
  function FirstWaiting(ph: seq<PhaseState>, i: nat): (r: nat)
    requires i <= |ph|
    ensures i <= r <= |ph| && (r < |ph| ==> Waits(ph[r])) && forall j :: i <= j < r ==> !Waits(ph[j])
    decreases |ph| - i
  {
    if i == |ph| || Waits(ph[i]) then i else FirstWaiting(ph, i + 1)
  }

  function Refreshed(ph: seq<PhaseState>): (r: seq<PhaseState>)
    ensures |r| == |ph|
  {
    var i := FirstWaiting(ph, 0);
    if i < |ph| && PrerequisitesMet(ph, i) then ph[i := ph[i].(status := Ready)] else ph
  }

  // ---- The operations ----

  datatype Op =
    | Progress(phase: nat, inputs: seq<nat>, decisions: seq<nat>, operations: seq<nat>)
    | Start(phase: nat)
    | Seal(phase: nat, receipt: nat)
    | Block(phase: nat, blockers: seq<nat>)
    | Unblock(phase: nat)
    | MarkStale(phase: nat, text: nat, downstream: bool)
    | Reopen(phase: nat)
    | Cancel(phase: nat, checkpoint: nat)
    | Recover(phase: nat, source: nat, checkpoint: nat)
    | Reprofile(profile: set<nat>)
    | Invalidate(event: nat, target: Option<nat>)

  function Push(s: seq<nat>, x: nat): seq<nat> { if x in s then s else s + [x] }

  function AddAll(s: seq<nat>, more: seq<nat>): seq<nat>
    decreases |more|
  {
    if more == [] then s else AddAll(Push(s, more[0]), more[1..])
  }

  /** The receipt of a completed phase that is given up is kept among the superseded ones. */
  function Superseded(s: PhaseState): seq<nat> {
    if s.status == Complete && s.receipt.Some? then Push(s.superseded, s.receipt.value) else s.superseded
  }

  /** `staleOne` */
  function Staled(s: PhaseState, reason: Reason): PhaseState {
    if !s.applicable || s.status == Pending || s.status == NotApplicable then s
    else s.(superseded := Superseded(s), status := Stale, reason := reason, gate := false, receipt := None, blockers := [])
  }

  function Reopened(s: PhaseState): PhaseState {
    s.(superseded := Superseded(s), status := Ready, gate := false, receipt := None, blockers := [],
       reason := NoReason, checkpoint := None, reopens := s.reopens + 1)
  }

  function StaledIn(ph: seq<PhaseState>, targets: set<nat>, reason: Reason): (r: seq<PhaseState>)
    ensures |r| == |ph|
  {
    seq(|ph|, i requires 0 <= i < |ph| => if i in targets then Staled(ph[i], reason) else ph[i])
  }

  /** The phases from `i` on. */
  function From(i: nat, n: nat): (r: set<nat>)
    ensures forall j :: j in r <==> i <= j < n
    decreases n - i
  {
    if i >= n then {} else {i} + From(i + 1, n)
  }

  /** `phaseMutable`: the phase is applicable and in one of the allowed statuses. */
  predicate Mutable(b: Book, i: nat, allowed: set<PhaseStatus>) {
    i < |b.phases| && b.phases[i].applicable && b.phases[i].status in allowed
  }

  const WORKABLE: set<PhaseStatus> := {Ready, Active, Blocked}
  const STARTABLE: set<PhaseStatus> := {Ready}
  const FINISHABLE: set<PhaseStatus> := {Ready, Active}
  const BLOCKADED: set<PhaseStatus> := {Blocked}
  const REOPENABLE: set<PhaseStatus> := {Complete, Stale, Blocked, Cancelled, RecoveryRequired}
  const CANCELLABLE: set<PhaseStatus> := {Ready, Active, Blocked, Stale, RecoveryRequired}
  const RECOVERABLE: set<PhaseStatus> := {Cancelled, RecoveryRequired, Stale}

  function Put(b: Book, i: nat, s: PhaseState): Outcome
    requires i < |b.phases|
  {
    Accepted(b.(phases := b.phases[i := s]))
  }

  function Reprofiled(p: Phase, s: PhaseState, was: bool, now: bool): PhaseState {
    if !was && now then s.(applicable := true, status := Pending, reason := NoReason, checkpoint := None)
    else if was && !now then
      s.(applicable := false, superseded := Superseded(s), status := NotApplicable, gate := false, receipt := None,
         blockers := [], reason := NoReason, checkpoint := None)
    else s.(applicable := now)
  }

  /** Becomes applicable with the new profile. */
  predicate Newly(p: Phase, was: set<nat>, now: set<nat>) { !IsApplicable(p, was) && IsApplicable(p, now) }

  /** The first phase at or after `i` that becomes applicable, or the number of phases. */
  function FirstNewly(k: Contract, was: set<nat>, now: set<nat>, i: nat): (r: nat)
    requires i <= |k.phases|
    ensures i <= r <= |k.phases| && (r < |k.phases| ==> Newly(k.phases[r], was, now))
    ensures forall j :: i <= j < r ==> !Newly(k.phases[j], was, now)
    decreases |k.phases| - i
  {
    if i == |k.phases| || Newly(k.phases[i], was, now) then i else FirstNewly(k, was, now, i + 1)
  }

  function ReprofiledPhases(k: Contract, b: Book, profile: set<nat>): (r: seq<PhaseState>)
    requires |b.phases| == |k.phases|
    ensures |r| == |b.phases|
  {
    seq(|b.phases|, i requires 0 <= i < |b.phases| =>
      Reprofiled(k.phases[i], b.phases[i], IsApplicable(k.phases[i], b.profile), IsApplicable(k.phases[i], profile)))
  }

  // The operations that change several phases.

  function StaledBook(b: Book, i: nat, text: nat, downstream: bool): Book {
    b.(phases := StaledIn(b.phases, if downstream then From(i, |b.phases|) else {i}, Given(text)))
  }

  function ReopenedBook(b: Book, i: nat): Book
    requires i < |b.phases|
  {
    b.(phases := StaledIn(b.phases[i := Reopened(b.phases[i])], From(i + 1, |b.phases|), UpstreamReopen(i)))
  }

  function ReprofiledBook(k: Contract, b: Book, profile: set<nat>): Book
    requires |b.phases| == |k.phases|
  {
    b.(profile := profile,
       phases := StaledIn(ReprofiledPhases(k, b, profile),
                          From(FirstNewly(k, b.profile, profile, 0) + 1, |b.phases|), ProfileChanged))
  }

  /** The phases that an event of the rule stales. */
  function InvalidationTargets(r: Rule, target: Option<nat>, n: nat): set<nat> {
    if r.dynamic then (if target.Some? then From(target.value, n) else {}) else set x | x in r.targets
  }

  function InvalidatedBook(b: Book, r: Rule, target: Option<nat>): Book {
    b.(phases := StaledIn(b.phases, InvalidationTargets(r, target, |b.phases|), Given(r.reason)))
  }

  /** The change of the cloned state, before it is closed. */
  function Mutated(k: Contract, b: Book, op: Op): Outcome
    requires |b.phases| == |k.phases|
  {
    match op
    case Progress(i, inputs, decisions, operations) =>
      if !Mutable(b, i, WORKABLE) then Rejected
      else if !Within(inputs, k.phases[i].inputs) || !Within(decisions, k.phases[i].decisions)
              || !Within(operations, k.phases[i].operations) then Rejected
      else
        var s := b.phases[i];
        Put(b, i, s.(inputs := AddAll(s.inputs, inputs), decisions := AddAll(s.decisions, decisions),
                     operations := AddAll(s.operations, operations)))
    case Start(i) =>
      if !Mutable(b, i, STARTABLE) then Rejected else Put(b, i, b.phases[i].(status := Active, source := Some(b.source)))
    case Seal(i, receipt) =>
      if !Mutable(b, i, FINISHABLE) then Rejected
      else if !Within(k.phases[i].inputs, b.phases[i].inputs) || !Within(k.phases[i].decisions, b.phases[i].decisions) then Rejected
      else
        Put(b, i, b.phases[i].(status := Complete, gate := true, receipt := Some(receipt), source := Some(b.source),
                               blockers := [], reason := NoReason, checkpoint := None))
    case Block(i, blockers) =>
      if !Distinct(blockers) || blockers == [] || !Mutable(b, i, FINISHABLE) then Rejected
      else Put(b, i, b.phases[i].(status := Blocked, blockers := blockers))
    case Unblock(i) =>
      if !Mutable(b, i, BLOCKADED) then Rejected else Put(b, i, b.phases[i].(status := Ready, blockers := []))
    case MarkStale(i, text, downstream) =>
      if i >= |b.phases| then Rejected
      else Accepted(StaledBook(b, i, text, downstream))
    case Reopen(i) =>
      if i >= |k.phases| || !k.phases[i].reopenable || !Mutable(b, i, REOPENABLE)
      then Rejected
      else Accepted(ReopenedBook(b, i))
    case Cancel(i, checkpoint) =>
      if !Mutable(b, i, CANCELLABLE) then Rejected
      else Put(b, i, b.phases[i].(status := Cancelled, checkpoint := Some(checkpoint), blockers := []))
    case Recover(i, source, checkpoint) =>
      if !Mutable(b, i, RECOVERABLE) then Rejected
      else if (b.phases[i].checkpoint.Some? && b.phases[i].checkpoint.value != checkpoint) || source != b.source then Rejected
      else Put(b, i, b.phases[i].(status := Ready, checkpoint := None, reason := NoReason, blockers := []))
    case Reprofile(profile) =>
      if profile !in k.profiles then Rejected
      else Accepted(ReprofiledBook(k, b, profile))
    case Invalidate(event, target) =>
      if event !in k.rules then Rejected
      else if k.rules[event].dynamic && (target.None? || target.value >= |b.phases|) then Rejected
      else Accepted(InvalidatedBook(b, k.rules[event], target))
  }

  /** The end of `mutate`: readiness, version and status are brought up to date. */
  function Closed(b: Book): Book {
    var ph := Refreshed(b.phases);
    b.(version := b.version + 1, phases := ph, status := DerivedStatus(ph))
  }

  /** The draft is closed and validated. */
  function Closing(k: Contract, draft: Outcome): Outcome {
    if draft.Rejected? then Rejected
    else if Valid(k, Closed(draft.book)) then Accepted(Closed(draft.book)) else Rejected
  }

  /** `mutate`, with the validation of the state before and after. */
  function Apply(k: Contract, b: Book, op: Op): Outcome {
    if !Valid(k, b) then Rejected else Closing(k, Mutated(k, b, op))
  }

  function Template(p: Phase, profile: set<nat>): PhaseState {
    PhaseState(IsApplicable(p, profile), if IsApplicable(p, profile) then Pending else NotApplicable, None, [], [], [],
               false, None, [], [], NoReason, None, 0)
  }

  function Created(k: Contract, source: nat, profile: set<nat>): Outcome {
    if profile !in k.profiles then Rejected
    else
      var ph := Refreshed(seq(|k.phases|, i requires 0 <= i < |k.phases| => Template(k.phases[i], profile)));
      var b := Book(1, source, profile, ph, DerivedStatus(ph));
      if Valid(k, b) then Accepted(b) else Rejected
  }

  // ---- calculateNextStep ----

  datatype Step =
    | ResolveBlocker(phase: nat) | RevalidateOrReopen(phase: nat) | RecoverPhase(phase: nat)
    | ProvideInput(phase: nat, value: nat) | ResolveDecision(phase: nat, value: nat) | WaitForPrerequisite(phase: nat)
    | StartPhase(phase: nat) | ExecuteOperation(phase: nat, value: nat) | SealPhaseCompletion(phase: nat)
    | LifecycleComplete

  /** The first phase at or after `i` that is not done, or the number of phases. */
  function Frontier(ph: seq<PhaseState>, i: nat): (r: nat)
    requires i <= |ph|
    ensures i <= r <= |ph| && (r < |ph| ==> !Done(ph[r])) && forall j :: i <= j < r ==> Done(ph[j])
    decreases |ph| - i
  {
    if i == |ph| || !Done(ph[i]) then i else Frontier(ph, i + 1)
  }

  /** The position of the first value of `required` that is missing, or the length. */
  function FirstMissing(required: seq<nat>, have: seq<nat>): (r: nat)
    ensures r <= |required| && (r < |required| ==> required[r] !in have)
    ensures forall j :: 0 <= j < r ==> required[j] in have
  {
    if required == [] || required[0] !in have then 0
    else
      var r := 1 + FirstMissing(required[1..], have);
      assert forall j :: 1 <= j < r ==> required[j] == required[1..][j - 1];
      r
  }

  function StepOf(p: Phase, s: PhaseState, i: nat): Step {
    var input := FirstMissing(p.inputs, s.inputs);
    var decision := FirstMissing(p.decisions, s.decisions);
    var operation := FirstMissing(p.operations, s.operations);
    if s.status == Blocked then ResolveBlocker(i)
    else if s.status == Stale then RevalidateOrReopen(i)
    else if s.status == Cancelled || s.status == RecoveryRequired then RecoverPhase(i)
    else if input < |p.inputs| then ProvideInput(i, p.inputs[input])
    else if decision < |p.decisions| then ResolveDecision(i, p.decisions[decision])
    else if s.status == Pending then WaitForPrerequisite(i)
    else if s.status == Ready then StartPhase(i)
    else if operation < |p.operations| then ExecuteOperation(i, p.operations[operation])
    else SealPhaseCompletion(i)
  }

  function NextStep(k: Contract, b: Book): Step
    requires |b.phases| == |k.phases|
  {
    var i := Frontier(b.phases, 0);
    if i == |b.phases| then LifecycleComplete else StepOf(k.phases[i], b.phases[i], i)
  }
}
