/** The accounting of dispatch failures: every accepted failure is logged and counted once. */
module FailureSafety {
  import opened Wrappers
  import opened Tables
  import opened SupervisorSpec
  import opened SupervisorInvariants
  import opened SupervisorSafety
  import opened EvaluationSafety

  predicate FailureOf(e: Event, d: DispatchId) { IsFailure(e) && e.dispatch == Some(d) }

  /** The number of accepted failures of a dispatch. */
  function Failures(ev: seq<Event>, d: DispatchId): nat {
    if ev == [] then 0 else Failures(ev[..|ev| - 1], d) + (if FailureOf(ev[|ev| - 1], d) then 1 else 0)
  }

  lemma {:induction false} FailuresAppend(ev: seq<Event>, more: seq<Event>, d: DispatchId)
    ensures Failures(ev + more, d) == Failures(ev, d) + Failures(more, d)
    decreases |more|
  {
    if more == [] { assert ev + more == ev; }
    else {
      assert (ev + more)[..|ev + more| - 1] == ev + more[..|more| - 1];
      FailuresAppend(ev, more[..|more| - 1], d);
    }
  }

  lemma {:induction false} NoFailures(ev: seq<Event>, d: DispatchId)
    requires forall j :: 0 <= j < |ev| ==> !FailureOf(ev[j], d)
    ensures Failures(ev, d) == 0
    decreases |ev|
  {
    if ev != [] { NoFailures(ev[..|ev| - 1], d); }
  }

  predicate Retryable(s: OutboxState) { s == Pending || s == RetryWait }

  predicate AccountOk(c: Core, d: DispatchId)
    requires d in c.outbox
  {
    var o := c.outbox[d];
    && o.attempt == Failures(c.events, d) + (if o.run.Some? then 1 else 0)
    && Failures(c.events, d) <= 3
    && (Retryable(o.state) ==> o.run.None? && o.attempt <= 2)
  }

  predicate FailureKnown(c: Core, j: nat)
    requires j < |c.events|
  {
    IsFailure(c.events[j]) ==> c.events[j].dispatch.Some? && c.events[j].dispatch.value in c.outbox
  }

  predicate FailuresDiffer(c: Core, j: nat, k: nat)
    requires j < |c.events| && k < |c.events|
  {
    IsFailure(c.events[j]) && IsFailure(c.events[k]) && c.events[j].doc.failure == c.events[k].doc.failure ==> j == k
  }

  ghost predicate Accounted(c: Core) {
    && (forall d {:trigger AccountOk(c, d)} :: d in c.outbox ==> AccountOk(c, d))
    && (forall j: nat {:trigger FailureKnown(c, j)} :: j < |c.events| ==> FailureKnown(c, j))
    && (forall j: nat, k: nat {:trigger FailuresDiffer(c, j, k)} :: j < |c.events| && k < |c.events| ==> FailuresDiffer(c, j, k))
  }

  // ---- Transactions that accept no failure and acknowledge no run ----

  predicate SameAccount(c: Core, b: Core, d: DispatchId)
    requires d in b.outbox
  {
    if d in c.outbox then
      && b.outbox[d].attempt == c.outbox[d].attempt && b.outbox[d].run == c.outbox[d].run
      && (Retryable(b.outbox[d].state) ==> Retryable(c.outbox[d].state))
    else b.outbox[d].attempt == 0 && b.outbox[d].run.None?
  }

  ghost predicate FailureFree(c: Core, b: Core) {
    && c.events <= b.events
    && (forall j {:trigger b.events[j]} :: |c.events| <= j < |b.events| ==> !IsFailure(b.events[j]))
    && c.outbox.Keys <= b.outbox.Keys
    && (forall d {:trigger SameAccount(c, b, d)} :: d in b.outbox ==> SameAccount(c, b, d))
  }

  lemma SameFailures(c: Core, b: Core, d: DispatchId)
    requires c.events <= b.events
    requires forall j {:trigger b.events[j]} :: |c.events| <= j < |b.events| ==> !FailureOf(b.events[j], d)
    ensures Failures(b.events, d) == Failures(c.events, d)
  {
    var more := b.events[|c.events|..];
    assert b.events == c.events + more;
    FailuresAppend(c.events, more, d);
    NoFailures(more, d);
  }

  lemma UnknownHasNoFailures(c: Core, d: DispatchId)
    requires Accounted(c) && d !in c.outbox
    ensures Failures(c.events, d) == 0
  {
    forall j: nat | j < |c.events| ensures !FailureOf(c.events[j], d) { assert FailureKnown(c, j); }
    NoFailures(c.events, d);
  }

  lemma FailureFreeKeeps(c: Core, b: Core)
    requires FailureFree(c, b) && Accounted(c)
    ensures Accounted(b)
  {
    forall d | d in b.outbox ensures AccountOk(b, d) {
      assert SameAccount(c, b, d);
      SameFailures(c, b, d);
      if d in c.outbox { assert AccountOk(c, d); } else { UnknownHasNoFailures(c, d); }
    }
    forall j: nat | j < |b.events| ensures FailureKnown(b, j) { if j < |c.events| { assert FailureKnown(c, j); } }
    forall j: nat, k: nat | j < |b.events| && k < |b.events| ensures FailuresDiffer(b, j, k) {
      if j < |c.events| && k < |c.events| { assert FailuresDiffer(c, j, k); }
    }
  }

  // ---- The acknowledgement and the failure callback ----

  lemma MarkDispatchedAccounted(c: Core, d: DispatchId, run: RunId, now: int)
    requires Accounted(c) && MarkDispatched(c, d, run, now).Ok?
    ensures Accounted(MarkDispatched(c, d, run, now).value)
  {
    var b := MarkDispatched(c, d, run, now).value;
    if c.outbox[d].run.None? {
      forall x | x in b.outbox ensures AccountOk(b, x) { assert AccountOk(c, x); SameFailures(c, b, x); }
      forall j: nat | j < |b.events| ensures FailureKnown(b, j) { if j < |c.events| { assert FailureKnown(c, j); } }
      forall j: nat, k: nat | j < |b.events| && k < |b.events| ensures FailuresDiffer(b, j, k) {
        if j < |c.events| && k < |c.events| { assert FailuresDiffer(c, j, k); }
      }
    }
  }

  lemma DispatchFailedAccounted(c: Core, d: DispatchId, error: nat, budget: int, failure: nat, now: int)
    requires Accounted(c) && DispatchFailed(c, d, error, budget, failure, now).Ok?
    ensures Accounted(DispatchFailed(c, d, error, budget, failure, now).value.0)
  {
    var b := DispatchFailed(c, d, error, budget, failure, now).value.0;
    if FindFailure(c.events, 0, failure) == |c.events| {
      assert AccountOk(c, d);
      var more := b.events[|c.events|..];
      assert b.events == c.events + more && |more| == 1;
      forall x | x in b.outbox ensures AccountOk(b, x) {
        assert AccountOk(c, x);
        FailuresAppend(c.events, more, x);
        assert more[..0] == [];
        assert Failures(more, x) == if x == d then 1 else 0;
      }
      forall j: nat | j < |b.events| ensures FailureKnown(b, j) { if j < |c.events| { assert FailureKnown(c, j); } }
      forall j: nat, k: nat | j < |b.events| && k < |b.events| ensures FailuresDiffer(b, j, k) {
        if j < |c.events| && k < |c.events| { assert FailuresDiffer(c, j, k); }
      }
    }
  }

  // ---- Replays ----

  lemma {:induction false} FindFailureAt(ev: seq<Event>, i: nat, k: nat, failure: nat)
    requires i <= k < |ev| && IsFailure(ev[k]) && ev[k].doc.failure == failure
    requires forall j :: i <= j < k ==> !(IsFailure(ev[j]) && ev[j].doc.failure == failure)
    ensures FindFailure(ev, i, failure) == k
    decreases k - i
  {
    if i < k { FindFailureAt(ev, i + 1, k, failure); }
  }

  /** A failure that was once accepted is answered in the same way ever after, and changes nothing again. */
  lemma ReplayGivesFirstAnswer(
    c: Core, b: Core, d: DispatchId, error: nat, budget: int, failure: nat, now: int, later: int)
    requires DispatchFailed(c, d, error, budget, failure, now).Ok?
    requires Evolves(DispatchFailed(c, d, error, budget, failure, now).value.0, b)
    ensures DispatchFailed(b, d, error, budget, failure, later)
            == Ok((b, DispatchFailed(c, d, error, budget, failure, now).value.1))
  {
    var c' := DispatchFailed(c, d, error, budget, failure, now).value.0;
    var k := FindFailure(c.events, 0, failure);
    assert DispatchEvolves(c', b, d);
    assert forall j :: 0 <= j < |c'.events| ==> b.events[j] == c'.events[j];
    assert forall j :: 0 <= j < |c.events| ==> b.events[j] == c.events[j];
    FindFailureAt(b.events, 0, k, failure);
  }
}
