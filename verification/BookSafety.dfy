/** The Book lifecycle never gets stuck: every operation that is accepted closes in a valid state, and following the
    next step always ends in a complete book. */
module BookSafety {
  import opened Wrappers
  import opened BookSpec

  // ---- What accepted operations keep ----

  lemma {:induction false} AddAllKeeps(s: seq<nat>, more: seq<nat>, all: seq<nat>)
    requires Distinct(s) && Within(s, all) && Within(more, all)
    ensures Distinct(AddAll(s, more)) && Within(AddAll(s, more), all)
    ensures Within(s, AddAll(s, more)) && Within(more, AddAll(s, more))
    ensures forall x :: x in AddAll(s, more) <==> x in s || x in more
    decreases |more|
  {
    if more != [] {
      assert more[0] in more && forall x :: x in more[1..] ==> x in more;
      AddAllKeeps(Push(s, more[0]), more[1..], all);
    }
  }

  lemma StaledOk(p: Phase, s: PhaseState, source: nat, profile: set<nat>, reason: Reason)
    requires PhaseOk(p, s, source, profile) && !reason.NoReason?
    ensures PhaseOk(p, Staled(s, reason), source, profile)
  { }

  lemma StaledInOk(k: Contract, source: nat, profile: set<nat>, ph: seq<PhaseState>, targets: set<nat>, reason: Reason)
    requires PhasesOk(k, source, profile, ph) && !reason.NoReason?
    ensures PhasesOk(k, source, profile, StaledIn(ph, targets, reason))
  {
    var r := StaledIn(ph, targets, reason);
    forall i | 0 <= i < |r| ensures PhaseOk(k.phases[i], r[i], source, profile) {
      StaledOk(k.phases[i], ph[i], source, profile, reason);
    }
  }

  lemma ReprofiledOk(k: Contract, b: Book, profile: set<nat>)
    requires PhasesOk(k, b.source, b.profile, b.phases)
    ensures PhasesOk(k, b.source, profile, ReprofiledPhases(k, b, profile))
  {
    var r := ReprofiledPhases(k, b, profile);
    forall i | 0 <= i < |r| ensures PhaseOk(k.phases[i], r[i], b.source, profile) {
      assert PhaseOk(k.phases[i], b.phases[i], b.source, b.profile);
    }
  }

  /** Whatever the checks of an operation let through leaves valid phases. */
  lemma MutatedOk(k: Contract, b: Book, op: Op)
    requires ContractOk(k) && Valid(k, b) && Mutated(k, b, op).Accepted?
    ensures var c := Mutated(k, b, op).book;
            PhasesOk(k, c.source, c.profile, c.phases) && c.profile in k.profiles && c.version == b.version && c.source == b.source
  {
    match op {
      case Progress(i, inputs, decisions, operations) => ProgressOk(k, b, i, inputs, decisions, operations);
      case MarkStale(i, text, downstream) =>
        StaledInOk(k, b.source, b.profile, b.phases, if downstream then From(i, |b.phases|) else {i}, Given(text));
      case Reopen(i) => ReopenedOk(k, b, i);
      case Reprofile(profile) =>
        ReprofiledOk(k, b, profile);
        StaledInOk(k, b.source, profile, ReprofiledPhases(k, b, profile),
                   From(FirstNewly(k, b.profile, profile, 0) + 1, |b.phases|), ProfileChanged);
      case Invalidate(event, target) =>
        var r := k.rules[event];
        StaledInOk(k, b.source, b.profile, b.phases, InvalidationTargets(r, target, |b.phases|), Given(r.reason));
      case _ => SinglePhaseOk(k, b, op);
    }
  }

  lemma SinglePhaseOk(k: Contract, b: Book, op: Op)
    requires PhasesOk(k, b.source, b.profile, b.phases) && Mutated(k, b, op).Accepted?
    requires op.Start? || op.Seal? || op.Block? || op.Unblock? || op.Cancel? || op.Recover?
    ensures PhasesOk(k, b.source, b.profile, Mutated(k, b, op).book.phases)
  { assert PhaseOk(k.phases[op.phase], b.phases[op.phase], b.source, b.profile); }

  lemma ReopenedOk(k: Contract, b: Book, i: nat)
    requires PhasesOk(k, b.source, b.profile, b.phases) && Mutated(k, b, Reopen(i)).Accepted?
    ensures PhasesOk(k, b.source, b.profile, Mutated(k, b, Reopen(i)).book.phases)
  {
    assert PhaseOk(k.phases[i], b.phases[i], b.source, b.profile);
    StaledInOk(k, b.source, b.profile, b.phases[i := Reopened(b.phases[i])], From(i + 1, |b.phases|), UpstreamReopen(i));
  }

  lemma ProgressOk(k: Contract, b: Book, i: nat, inputs: seq<nat>, decisions: seq<nat>, operations: seq<nat>)
    requires PhasesOk(k, b.source, b.profile, b.phases) && Mutated(k, b, Progress(i, inputs, decisions, operations)).Accepted?
    ensures PhasesOk(k, b.source, b.profile, Mutated(k, b, Progress(i, inputs, decisions, operations)).book.phases)
  {
    var p, s := k.phases[i], b.phases[i];
    assert PhaseOk(p, s, b.source, b.profile);
    AddAllKeeps(s.inputs, inputs, p.inputs);
    AddAllKeeps(s.decisions, decisions, p.decisions);
    AddAllKeeps(s.operations, operations, p.operations);
  }

  lemma RefreshedOk(k: Contract, source: nat, profile: set<nat>, ph: seq<PhaseState>)
    requires PhasesOk(k, source, profile, ph)
    ensures PhasesOk(k, source, profile, Refreshed(ph))
  {
    var i := FirstWaiting(ph, 0);
    if i < |ph| { assert PhaseOk(k.phases[i], ph[i], source, profile); }
  }

  /** The closing validation of `mutate` never fails: an operation is accepted exactly when its own checks pass. */
  lemma ClosingNeverFails(k: Contract, b: Book, op: Op)
    requires ContractOk(k) && Valid(k, b)
    ensures Apply(k, b, op) == (if Mutated(k, b, op).Accepted? then Accepted(Closed(Mutated(k, b, op).book)) else Rejected)
  {
    if Mutated(k, b, op).Accepted? {
      var c := Mutated(k, b, op).book;
      MutatedOk(k, b, op);
      RefreshedOk(k, c.source, c.profile, c.phases);
    }
  }

  /** The receipt counts for the phase, now or formerly. */
  predicate Remembers(s: PhaseState, receipt: nat) {
    (s.status == Complete && s.receipt == Some(receipt)) || receipt in s.superseded
  }

  /** No completion receipt is ever lost: a completed phase that is given up keeps its receipt as superseded. */
  lemma ReceiptsKept(k: Contract, b: Book, op: Op, i: nat, receipt: nat)
    requires Apply(k, b, op).Accepted? && i < |b.phases| && Remembers(b.phases[i], receipt)
    ensures i < |Apply(k, b, op).book.phases| && Remembers(Apply(k, b, op).book.phases[i], receipt)
  {
    var draft := Mutated(k, b, op).book.phases;
    assert PhaseOk(k.phases[i], b.phases[i], b.source, b.profile);
    assert |draft| == |b.phases| && Remembers(draft[i], receipt) by { ChangeRemembers(k, b, op, i, receipt); }
  }

  lemma ChangeRemembers(k: Contract, b: Book, op: Op, i: nat, receipt: nat)
    requires |b.phases| == |k.phases| && Mutated(k, b, op).Accepted? && i < |b.phases| && Remembers(b.phases[i], receipt)
    requires PhaseOk(k.phases[i], b.phases[i], b.source, b.profile)
    ensures |Mutated(k, b, op).book.phases| == |b.phases| && Remembers(Mutated(k, b, op).book.phases[i], receipt)
  { }

  // ---- The first open phase ----

  /** The first phase that is not done does not wait for a prerequisite. */
  predicate Settled(ph: seq<PhaseState>) {
    var i := Frontier(ph, 0); i < |ph| ==> ph[i].status != Pending
  }

  lemma {:induction false} FrontierIs(ph: seq<PhaseState>, i: nat, r: nat)
    requires i <= r <= |ph| && (r < |ph| ==> !Done(ph[r])) && forall j :: i <= j < r ==> Done(ph[j])
    ensures Frontier(ph, i) == r
    decreases r - i
  {
    if i < r { FrontierIs(ph, i + 1, r); }
  }

  lemma {:induction false} FirstWaitingIs(ph: seq<PhaseState>, i: nat, r: nat)
    requires i <= r <= |ph| && (r < |ph| ==> Waits(ph[r])) && forall j :: i <= j < r ==> !Waits(ph[j])
    ensures FirstWaiting(ph, i) == r
    decreases r - i
  {
    if i < r { FirstWaitingIs(ph, i + 1, r); }
  }

  /** Readiness is refreshed exactly at the frontier, if the phase there waits. */
  lemma RefreshedAtFrontier(ph: seq<PhaseState>)
    ensures var f := Frontier(ph, 0);
            Refreshed(ph) == (if f < |ph| && ph[f].status == Pending then ph[f := ph[f].(status := Ready)] else ph)
            && Frontier(Refreshed(ph), 0) == f
  {
    var f, i := Frontier(ph, 0), FirstWaiting(ph, 0);
    if f < |ph| && ph[f].status == Pending {
      FirstWaitingIs(ph, 0, f);
      assert Refreshed(ph) == ph[f := ph[f].(status := Ready)];
    } else {
      if i < |ph| && PrerequisitesMet(ph, i) { FrontierIs(ph, 0, i); }
      assert Refreshed(ph) == ph;
    }
    FrontierIs(Refreshed(ph), 0, f);
  }

  lemma RefreshedSettles(ph: seq<PhaseState>)
    ensures Settled(Refreshed(ph))
  { RefreshedAtFrontier(ph); }

  // ---- What an accepted operation on one phase does ----

  /** Some phase of the profile is in one of the statuses. */
  predicate Has(ph: seq<PhaseState>, statuses: set<PhaseStatus>) {
    exists j :: 0 <= j < |ph| && ph[j].applicable && ph[j].status in statuses
  }

  /** What a status says of the phases: the worst of them decides, and an open book without trouble is active. */
  predicate StatusIs(ph: seq<PhaseState>, status: BookStatus) {
    match status
    case CompleteBook => forall j :: 0 <= j < |ph| && ph[j].applicable ==> ph[j].status == Complete
    case StaleBook => Has(ph, {Stale, RecoveryRequired})
    case BlockedBook => Has(ph, {Blocked}) && !Has(ph, {Stale, RecoveryRequired})
    case CancelledBook => Has(ph, {Cancelled}) && !Has(ph, {Stale, RecoveryRequired, Blocked})
    case ActiveBook =>
      && !Has(ph, {Stale, RecoveryRequired, Blocked, Cancelled})
      && exists j :: 0 <= j < |ph| && ph[j].applicable && ph[j].status != Complete
  }

  lemma StatusMeans(ph: seq<PhaseState>)
    ensures StatusIs(ph, DerivedStatus(ph))
  {
    if exists i :: 0 <= i < |ph| && !Done(ph[i]) {
      var i :| 0 <= i < |ph| && !Done(ph[i]);
      assert ph[i].applicable && ph[i].status != Complete;
    }
  }

  /** The other phases are as before, but for the first open one, which no longer waits; the book is one version on. */
  predicate OnlyPhase(b: Book, c: Book, i: nat) {
    && c.version == b.version + 1 && c.source == b.source && c.profile == b.profile && |c.phases| == |b.phases|
    && Settled(c.phases) && StatusIs(c.phases, c.status)
    && forall j :: 0 <= j < |b.phases| && j != i ==>
         c.phases[j] == if j == Frontier(c.phases, 0) && b.phases[j].status == Pending then b.phases[j].(status := Ready)
                        else b.phases[j]
  }

  /** The phase at `i` becomes `t`. */
  predicate Becomes(b: Book, c: Book, i: nat, t: PhaseState) { OnlyPhase(b, c, i) && i < |c.phases| && c.phases[i] == t }

  lemma OnePhaseChanged(b: Book, i: nat, t: PhaseState)
    requires i < |b.phases| && t.status != Pending
    ensures Becomes(b, Closed(b.(phases := b.phases[i := t])), i, t)
  {
    RefreshedAtFrontier(b.phases[i := t]);
    RefreshedSettles(b.phases[i := t]);
    StatusMeans(Refreshed(b.phases[i := t]));
  }

  /** Completion: of a READY or ACTIVE phase with all inputs and decisions recorded, and only then. */
  lemma SealEffect(k: Contract, b: Book, i: nat, receipt: nat)
    requires ContractOk(k)
    ensures var r := Apply(k, b, Seal(i, receipt));
            && (r.Accepted? <==> Valid(k, b) && i < |b.phases| && b.phases[i].applicable && b.phases[i].status in {Ready, Active}
                                 && Within(k.phases[i].inputs, b.phases[i].inputs)
                                 && Within(k.phases[i].decisions, b.phases[i].decisions))
            && (r.Accepted? ==>
                  Becomes(b, r.book, i, b.phases[i].(status := Complete, gate := true, receipt := Some(receipt),
                                                     source := Some(b.source), blockers := [], reason := NoReason,
                                                     checkpoint := None)))
  {
    if Valid(k, b) {
      ClosingNeverFails(k, b, Seal(i, receipt));
      if Mutated(k, b, Seal(i, receipt)).Accepted? { OnePhaseChanged(b, i, Mutated(k, b, Seal(i, receipt)).book.phases[i]); }
    }
  }

  lemma RecoverAccepted(k: Contract, b: Book, i: nat, source: nat, checkpoint: nat)
    requires |b.phases| == |k.phases|
    ensures var r := Mutated(k, b, Recover(i, source, checkpoint));
            && (r.Accepted? <==> i < |b.phases| && b.phases[i].applicable
                                 && b.phases[i].status in {Cancelled, RecoveryRequired, Stale} && source == b.source
                                 && (b.phases[i].checkpoint == None || b.phases[i].checkpoint == Some(checkpoint)))
            && (r.Accepted? ==>
                  var t := b.phases[i].(status := Ready, checkpoint := None, reason := NoReason, blockers := []);
                  r.book == b.(phases := b.phases[i := t]))
  { }

  /** Recovery: of a stale, cancelled or interrupted phase, with its checkpoint if it has one and the current source. */
  lemma RecoverEffect(k: Contract, b: Book, i: nat, source: nat, checkpoint: nat)
    requires ContractOk(k)
    ensures var r := Apply(k, b, Recover(i, source, checkpoint));
            && (r.Accepted? <==> Valid(k, b) && i < |b.phases| && b.phases[i].applicable
                                 && b.phases[i].status in {Cancelled, RecoveryRequired, Stale} && source == b.source
                                 && (b.phases[i].checkpoint == None || b.phases[i].checkpoint == Some(checkpoint)))
            && (r.Accepted? ==>
                  Becomes(b, r.book, i, b.phases[i].(status := Ready, checkpoint := None, reason := NoReason, blockers := [])))
  {
    if Valid(k, b) {
      ClosingNeverFails(k, b, Recover(i, source, checkpoint));
      RecoverAccepted(k, b, i, source, checkpoint);
      if i < |b.phases| {
        OnePhaseChanged(b, i, b.phases[i].(status := Ready, checkpoint := None, reason := NoReason, blockers := []));
      }
    }
  }

  /** When a phase may be started, blocked, unblocked or cancelled. */
  predicate MayChange(b: Book, op: Op)
    requires op.Start? || op.Block? || op.Unblock? || op.Cancel?
  {
    op.phase < |b.phases| && b.phases[op.phase].applicable
    && var status := b.phases[op.phase].status;
    match op
    case Start(_) => status == Ready
    case Block(_, blockers) => status in {Ready, Active} && blockers != [] && Distinct(blockers)
    case Unblock(_) => status == Blocked
    case _ => status in {Ready, Active, Blocked, Stale, RecoveryRequired}
  }

  /** What the phase is then: what else is known of it stays. */
  function Changed(b: Book, s: PhaseState, op: Op): (t: PhaseState)
    requires op.Start? || op.Block? || op.Unblock? || op.Cancel?
    ensures t.status != Pending && t == s.(status := t.status, source := t.source, blockers := t.blockers, checkpoint := t.checkpoint)
  {
    match op
    case Start(_) => s.(status := Active, source := Some(b.source))
    case Block(_, blockers) => s.(status := Blocked, blockers := blockers)
    case Unblock(_) => s.(status := Ready, blockers := [])
    case Cancel(_, checkpoint) => s.(status := Cancelled, checkpoint := Some(checkpoint), blockers := [])
  }

  lemma StatusAccepted(k: Contract, b: Book, op: Op)
    requires |b.phases| == |k.phases| && (op.Start? || op.Block? || op.Unblock? || op.Cancel?)
    ensures Mutated(k, b, op).Accepted? <==> MayChange(b, op)
    ensures MayChange(b, op) ==> Mutated(k, b, op).book == b.(phases := b.phases[op.phase := Changed(b, b.phases[op.phase], op)])
  { }

  lemma StatusEffect(k: Contract, b: Book, op: Op)
    requires ContractOk(k) && (op.Start? || op.Block? || op.Unblock? || op.Cancel?)
    ensures Apply(k, b, op).Accepted? <==> Valid(k, b) && MayChange(b, op)
    ensures Apply(k, b, op).Accepted? ==> Becomes(b, Apply(k, b, op).book, op.phase, Changed(b, b.phases[op.phase], op))
  {
    if Valid(k, b) {
      ClosingNeverFails(k, b, op);
      StatusAccepted(k, b, op);
      if MayChange(b, op) { OnePhaseChanged(b, op.phase, Changed(b, b.phases[op.phase], op)); }
    }
  }

  // ---- Reachable books ----

  ghost function After(k: Contract, b: Book, ops: seq<Op>): Book
    decreases |ops|
  {
    if ops == [] then b
    else
      var r := Apply(k, b, ops[0]);
      After(k, if r.Accepted? then r.book else b, ops[1..])
  }

  ghost predicate Reachable(k: Contract, b: Book) {
    exists source, profile, ops :: Created(k, source, profile).Accepted? && b == After(k, Created(k, source, profile).book, ops)
  }

  lemma ApplySettles(k: Contract, b: Book, op: Op)
    requires Apply(k, b, op).Accepted?
    ensures Valid(k, Apply(k, b, op).book) && Settled(Apply(k, b, op).book.phases)
  { RefreshedSettles(Mutated(k, b, op).book.phases); }

  lemma {:induction false} RunSettles(k: Contract, b: Book, ops: seq<Op>)
    requires Valid(k, b) && Settled(b.phases)
    ensures Valid(k, After(k, b, ops)) && Settled(After(k, b, ops).phases)
    decreases |ops|
  {
    if ops != [] {
      var r := Apply(k, b, ops[0]);
      if r.Accepted? { ApplySettles(k, b, ops[0]); }
      RunSettles(k, if r.Accepted? then r.book else b, ops[1..]);
    }
  }

  lemma ReachableIsSettled(k: Contract, b: Book)
    requires Reachable(k, b)
    ensures Valid(k, b) && Settled(b.phases)
  {
    var source, profile, ops :| Created(k, source, profile).Accepted? && b == After(k, Created(k, source, profile).book, ops);
    RefreshedSettles(seq(|k.phases|, i requires 0 <= i < |k.phases| => Template(k.phases[i], profile)));
    RunSettles(k, Created(k, source, profile).book, ops);
  }

  /** In every reachable state the calculator never answers WAIT_FOR_PREREQUISITE. */
  lemma NeverWaits(k: Contract, b: Book)
    requires Reachable(k, b)
    ensures Valid(k, b) && !NextStep(k, b).WaitForPrerequisite?
  {
    ReachableIsSettled(k, b);
    SettledNeverWaits(k, b);
  }

  /** In every reachable state a phase has what its status stands on: a completed one its gate, its receipt, the current
      source and every required value, a blocked one a blocker, a cancelled or interrupted one a checkpoint, a stale one a
      reason. */
  lemma StatusHasGrounds(k: Contract, b: Book, i: nat)
    requires Reachable(k, b) && i < |b.phases| && b.phases[i].applicable
    ensures Valid(k, b)
    ensures var p, s := k.phases[i], b.phases[i];
            && (s.status == Complete ==> s.gate && s.receipt.Some? && s.source == Some(b.source)
                                         && Within(p.inputs, s.inputs) && Within(p.decisions, s.decisions))
            && (s.status == Blocked ==> s.blockers != [])
            && (s.status in {Cancelled, RecoveryRequired} ==> s.checkpoint.Some?)
            && (s.status == Stale ==> !s.reason.NoReason?)
            && (p.flag.None? || p.flag.value in b.profile)
  {
    ReachableIsSettled(k, b);
    assert PhaseOk(k.phases[i], b.phases[i], b.source, b.profile);
  }

  lemma SettledNeverWaits(k: Contract, b: Book)
    requires |b.phases| == |k.phases| && Settled(b.phases)
    ensures !NextStep(k, b).WaitForPrerequisite?
  { }

  // ---- Following the next step ----

  /** The operation that carries out a step. Checkpoint and receipt are the caller's, unless the state names one. */
  function OpOf(b: Book, step: Step, checkpoint: nat, receipt: nat): Op
    requires !step.LifecycleComplete? && step.phase < |b.phases|
  {
    var i := step.phase;
    var ref := if b.phases[i].checkpoint.Some? then b.phases[i].checkpoint.value else checkpoint;
    match step
    case ResolveBlocker(_) => Unblock(i)
    case RevalidateOrReopen(_) => Recover(i, b.source, ref)
    case RecoverPhase(_) => Recover(i, b.source, ref)
    case ProvideInput(_, v) => Progress(i, [v], [], [])
    case ResolveDecision(_, v) => Progress(i, [], [v], [])
    case WaitForPrerequisite(_) => Start(i)
    case StartPhase(_) => Start(i)
    case ExecuteOperation(_, v) => Progress(i, [], [], [v])
    case SealPhaseCompletion(_) => Seal(i, receipt)
  }

  function Missing(required: seq<nat>, have: seq<nat>): set<nat> { set x | x in required && x !in have }

  function Effort(s: PhaseStatus): nat {
    match s case Active => 0 case Ready => 1 case _ => 2
  }

  /** What is left to do in one phase. */
  function Work(p: Phase, s: PhaseState): nat {
    Effort(s.status) + |Missing(p.inputs, s.inputs)| + |Missing(p.decisions, s.decisions)| + |Missing(p.operations, s.operations)|
  }

  function Open(ph: seq<PhaseState>): set<nat> { set i | 0 <= i < |ph| && !Done(ph[i]) }

  /** The measure: open phases, then the work left in the first of them. */
  function WorkLeft(k: Contract, b: Book): nat
    requires |b.phases| == |k.phases|
  {
    var i := Frontier(b.phases, 0); if i < |b.phases| then Work(k.phases[i], b.phases[i]) else 0
  }

  predicate Closer(k: Contract, b: Book, c: Book)
    requires |b.phases| == |k.phases| == |c.phases|
  {
    |Open(c.phases)| < |Open(b.phases)| || (|Open(c.phases)| == |Open(b.phases)| && WorkLeft(k, c) < WorkLeft(k, b))
  }

  lemma PushMissing(required: seq<nat>, have: seq<nat>, x: nat)
    requires x in required && x !in have
    ensures Missing(required, AddAll(have, [x])) == Missing(required, have) - {x}
    ensures |Missing(required, AddAll(have, [x]))| < |Missing(required, have)|
  {
    assert [x][1..] == [];
    assert AddAll(have, [x]) == AddAll(have + [x], []) == have + [x];
    assert x in Missing(required, have);
  }

  /** A change of the frontier phase alone that leaves it open and lessens its work. */
  lemma SamePhaseCloser(k: Contract, b: Book, c: Book, i: nat, t: PhaseState)
    requires |b.phases| == |k.phases| && i == Frontier(b.phases, 0) < |b.phases|
    requires c == Closed(b.(phases := b.phases[i := t]))
    requires !Done(t) && t.status != Pending && Work(k.phases[i], t) < Work(k.phases[i], b.phases[i])
    ensures Closer(k, b, c)
  {
    var ph := b.phases[i := t];
    FrontierIs(ph, 0, i);
    RefreshedAtFrontier(ph);
    assert Open(ph) == Open(b.phases);
  }

  lemma SealedCloser(k: Contract, b: Book, c: Book, i: nat, t: PhaseState)
    requires |b.phases| == |k.phases| && i == Frontier(b.phases, 0) < |b.phases|
    requires c == Closed(b.(phases := b.phases[i := t])) && Done(t)
    ensures Closer(k, b, c)
  {
    var ph := b.phases[i := t];
    RefreshedAtFrontier(ph);
    assert Open(Refreshed(ph)) == Open(ph);
    assert i in Open(b.phases);
    assert Open(ph) == Open(b.phases) - {i};
  }

  /** The named step is accepted by its operation and brings the book closer to completion. */
  lemma StepMakesProgress(k: Contract, b: Book, checkpoint: nat, receipt: nat)
    requires ContractOk(k) && Valid(k, b) && Settled(b.phases) && !NextStep(k, b).LifecycleComplete?
    ensures NextStep(k, b).phase < |b.phases|
    ensures var r := Apply(k, b, OpOf(b, NextStep(k, b), checkpoint, receipt));
            r.Accepted? && Valid(k, r.book) && Settled(r.book.phases) && Closer(k, b, r.book)
  {
    var i := Frontier(b.phases, 0);
    var p, s := k.phases[i], b.phases[i];
    assert PhaseOk(p, s, b.source, b.profile);
    var step := NextStep(k, b);
    var op := OpOf(b, step, checkpoint, receipt);
    StepAccepted(k, b, checkpoint, receipt);
    ClosingNeverFails(k, b, op);
    ApplySettles(k, b, op);
    var c := Apply(k, b, op).book;
    var t := Stepped(b, s, step, receipt);
    StepLessensWork(b, p, s, i, receipt);
    if step.SealPhaseCompletion? { SealedCloser(k, b, c, i, t); } else { SamePhaseCloser(k, b, c, i, t); }
  }

  lemma NothingMissing(required: seq<nat>, have: seq<nat>)
    requires FirstMissing(required, have) == |required|
    ensures Within(required, have)
  {
    forall x | x in required ensures x in have { var j :| 0 <= j < |required| && required[j] == x; }
  }

  /** What the step's operation makes of the frontier phase. */
  function Stepped(b: Book, s: PhaseState, step: Step, receipt: nat): PhaseState {
    match step
    case ResolveBlocker(_) => s.(status := Ready, blockers := [])
    case RevalidateOrReopen(_) => s.(status := Ready, checkpoint := None, reason := NoReason, blockers := [])
    case RecoverPhase(_) => s.(status := Ready, checkpoint := None, reason := NoReason, blockers := [])
    case ProvideInput(_, v) => s.(inputs := AddAll(s.inputs, [v]))
    case ResolveDecision(_, v) => s.(decisions := AddAll(s.decisions, [v]))
    case ExecuteOperation(_, v) => s.(operations := AddAll(s.operations, [v]))
    case SealPhaseCompletion(_) =>
      s.(status := Complete, gate := true, receipt := Some(receipt), source := Some(b.source), blockers := [],
         reason := NoReason, checkpoint := None)
    case _ => s.(status := Active, source := Some(b.source))
  }

  predicate IsProgress(step: Step) { step.ProvideInput? || step.ResolveDecision? || step.ExecuteOperation? }

  /** The operation of the step changes the phase at `i` as the step says. */
  predicate Carries(k: Contract, b: Book, i: nat, step: Step, checkpoint: nat, receipt: nat)
    requires |b.phases| == |k.phases| && i < |b.phases| && !step.LifecycleComplete? && step.phase == i
  {
    Mutated(k, b, OpOf(b, step, checkpoint, receipt)) == Accepted(b.(phases := b.phases[i := Stepped(b, b.phases[i], step, receipt)]))
  }

  lemma ProgressCarries(k: Contract, b: Book, i: nat, checkpoint: nat, receipt: nat)
    requires |b.phases| == |k.phases| && i < |b.phases| && Mutable(b, i, WORKABLE)
    requires IsProgress(StepOf(k.phases[i], b.phases[i], i))
    ensures Carries(k, b, i, StepOf(k.phases[i], b.phases[i], i), checkpoint, receipt)
  {
    var s := b.phases[i];
    assert AddAll(s.inputs, []) == s.inputs && AddAll(s.decisions, []) == s.decisions && AddAll(s.operations, []) == s.operations;
  }

  lemma StatusCarries(k: Contract, b: Book, i: nat, checkpoint: nat, receipt: nat)
    requires |b.phases| == |k.phases| && i < |b.phases| && PhaseOk(k.phases[i], b.phases[i], b.source, b.profile)
    requires !Done(b.phases[i]) && b.phases[i].status != Pending && !IsProgress(StepOf(k.phases[i], b.phases[i], i))
    ensures Carries(k, b, i, StepOf(k.phases[i], b.phases[i], i), checkpoint, receipt)
  {
    if StepOf(k.phases[i], b.phases[i], i).SealPhaseCompletion? {
      NothingMissing(k.phases[i].inputs, b.phases[i].inputs);
      NothingMissing(k.phases[i].decisions, b.phases[i].decisions);
    }
  }

  lemma StepAccepted(k: Contract, b: Book, checkpoint: nat, receipt: nat)
    requires |b.phases| == |k.phases| && Settled(b.phases) && !NextStep(k, b).LifecycleComplete?
    requires var i := Frontier(b.phases, 0); PhaseOk(k.phases[i], b.phases[i], b.source, b.profile)
    ensures var i := Frontier(b.phases, 0);
            i < |b.phases| && NextStep(k, b).phase == i && Carries(k, b, i, NextStep(k, b), checkpoint, receipt)
  {
    var i := Frontier(b.phases, 0);
    assert NextStep(k, b) == StepOf(k.phases[i], b.phases[i], i);
    if IsProgress(NextStep(k, b)) { ProgressCarries(k, b, i, checkpoint, receipt); }
    else { StatusCarries(k, b, i, checkpoint, receipt); }
  }

  lemma ProgressLessensWork(b: Book, p: Phase, s: PhaseState, step: Step, receipt: nat)
    requires || (step.ProvideInput? && step.value in p.inputs && step.value !in s.inputs)
             || (step.ResolveDecision? && step.value in p.decisions && step.value !in s.decisions)
             || (step.ExecuteOperation? && step.value in p.operations && step.value !in s.operations)
    ensures var t := Stepped(b, s, step, receipt); t.status == s.status && t.applicable == s.applicable && Work(p, t) < Work(p, s)
  {
    if step.ProvideInput? { PushMissing(p.inputs, s.inputs, step.value); }
    else if step.ResolveDecision? { PushMissing(p.decisions, s.decisions, step.value); }
    else { PushMissing(p.operations, s.operations, step.value); }
  }

  lemma StepLessensWork(b: Book, p: Phase, s: PhaseState, i: nat, receipt: nat)
    requires PhaseOk(p, s, b.source, b.profile) && !Done(s) && s.status != Pending
    ensures var t := Stepped(b, s, StepOf(p, s, i), receipt);
            if StepOf(p, s, i).SealPhaseCompletion? then Done(t)
            else !Done(t) && t.status != Pending && Work(p, t) < Work(p, s)
  {
    var step := StepOf(p, s, i);
    if IsProgress(step) {
      ProgressLessensWork(b, p, s, step, receipt);
    }
  }

  /** Following the next step, again and again. */
  ghost function Followed(k: Contract, b: Book, checkpoint: nat, receipt: nat): (r: Book)
    requires ContractOk(k) && Valid(k, b) && Settled(b.phases)
    ensures Valid(k, r) && NextStep(k, r).LifecycleComplete? && r.status == CompleteBook
    decreases |Open(b.phases)|, WorkLeft(k, b)
  {
    if NextStep(k, b).LifecycleComplete? then b
    else
      StepMakesProgress(k, b, checkpoint, receipt);
      Followed(k, Apply(k, b, OpOf(b, NextStep(k, b), checkpoint, receipt)).book, checkpoint, receipt)
  }

  /** From every reachable state the named steps, each accepted, lead to a complete book. */
  lemma FollowingFinishes(k: Contract, b: Book, checkpoint: nat, receipt: nat)
    requires ContractOk(k) && Reachable(k, b)
    ensures Valid(k, b) && Settled(b.phases)
    ensures Followed(k, b, checkpoint, receipt).status == CompleteBook
  { ReachableIsSettled(k, b); }
}
