/** How often one acquire call can raise the epoch of a path: at most once if and only if it tries at most once. */
module FileLeaseOnce {
  import opened Wrappers
  import opened FileLeaseSpec
  import opened FileLeaseSafety
  import opened FileLeaseRuns
  import opened FileLeaseCounterexample

  predicate CommitBy(c: Commit, x: nat) { c.cause.Acquires? && c.cause.call == x }

  predicate NoCommitBy(cs: seq<Commit>, x: nat) { forall i :: 0 <= i < |cs| ==> !CommitBy(cs[i], x) }

  /** A call that may try only once has no commit before it tries, and does not try again. */
  predicate TriesOnce(s: Sys, x: nat)
    requires x in s.calls
  {
    s.calls[x].Acquiring? && s.calls[x].req.attempts <= 1 ==>
      s.calls[x].attempt >= 1 && (s.calls[x].sent.None? ==> NoCommitBy(s.commits, x))
  }

  predicate SameTry(cs: seq<Commit>, i: CommitId, j: CommitId)
    requires i < |cs| && j < |cs|
  {
    (cs[i].cause.Acquires? && CommitBy(cs[j], cs[i].cause.call) && cs[i].cause.req.attempts <= 1) ==> i == j
  }

  ghost predicate Single(s: Sys) {
    && (forall x {:trigger TriesOnce(s, x)} :: x in s.calls ==> TriesOnce(s, x))
    && (forall i, j {:trigger SameTry(s.commits, i, j)} :: 0 <= i < |s.commits| && 0 <= j < |s.commits| ==> SameTry(s.commits, i, j))
  }

  /** A move that builds no acquisition. */
  lemma QuietKeepsSingle(s: Sys, t: Sys)
    requires Single(s) && s.commits <= t.commits && |t.commits| <= |s.commits| + 1
    requires |t.commits| > |s.commits| ==> !t.commits[|s.commits|].cause.Acquires?
    requires forall x :: x in t.calls ==> (x in s.calls && t.calls[x] == s.calls[x]) || TriesOnce(t, x)
    ensures Single(t)
  {
    forall x | x in t.calls ensures TriesOnce(t, x) { if x in s.calls { assert TriesOnce(s, x); } }
    forall i, j | 0 <= i < |t.commits| && 0 <= j < |t.commits| ensures SameTry(t.commits, i, j) {
      if i < |s.commits| && j < |s.commits| {
        assert SameTry(s.commits, i, j) && t.commits[i] == s.commits[i] && t.commits[j] == s.commits[j];
      }
    }
  }

  lemma BuildKeepsSingle(s: Sys, x: nat, fences: map<Path, nat>)
    requires SysOk(s) && Single(s) && x in s.calls && s.calls[x].Acquiring? && s.calls[x].sent.None?
    requires Decide(s.commits[s.head], s.calls[x].req) == Build
    ensures Single(Step(s, Attempt(x, fences)))
  {
    var t := Step(s, Attempt(x, fences));
    assert TriesOnce(s, x) && CallOk(s, x);
    forall y | y in t.calls ensures TriesOnce(t, y) { assert TriesOnce(s, y); }
    forall i, j | 0 <= i < |t.commits| && 0 <= j < |t.commits| ensures SameTry(t.commits, i, j) {
      if i < |s.commits| && j < |s.commits| { assert SameTry(s.commits, i, j); }
      else if i < |s.commits| { assert t.commits[i] == s.commits[i]; }
    }
  }

  lemma AttemptKeepsSingle(s: Sys, x: nat, fences: map<Path, nat>)
    requires SysOk(s) && Single(s)
    ensures Single(Step(s, Attempt(x, fences)))
  {
    if x in s.calls && s.calls[x].Acquiring? && s.calls[x].sent.None? && Decide(s.commits[s.head], s.calls[x].req) == Build {
      BuildKeepsSingle(s, x, fences);
    } else { QuietKeepsSingle(s, Step(s, Attempt(x, fences))); }
  }

  lemma FaultKeepsSingle(s: Sys, x: nat, blind: bool)
    requires SysOk(s) && Single(s)
    ensures Single(Step(s, Fault(x, blind)))
  {
    if x in s.calls { assert TriesOnce(s, x); }
    QuietKeepsSingle(s, Step(s, Fault(x, blind)));
  }

  lemma BeginKeepsSingle(s: Sys, x: nat, q: Request)
    requires SysOk(s) && Single(s)
    ensures Single(Step(s, BeginAcquire(x, q)))
  {
    assert x !in s.calls ==> NoCommitBy(s.commits, x);
    QuietKeepsSingle(s, Step(s, BeginAcquire(x, q)));
  }

  lemma StepKeepsSingle(s: Sys, m: Move)
    requires SysOk(s) && Single(s)
    ensures Single(Step(s, m))
  {
    match m {
      case Attempt(x, fences) => AttemptKeepsSingle(s, x, fences);
      case BeginAcquire(x, q) => BeginKeepsSingle(s, x, q);
      case Fault(x, blind) => FaultKeepsSingle(s, x, blind);
      case _ => QuietKeepsSingle(s, Step(s, m));
    }
  }

  lemma {:induction false} RunKeepsSingle(s: Sys, ms: seq<Move>)
    requires SysOk(s) && Single(s)
    ensures Single(After(s, ms))
    decreases |ms|
  {
    if ms != [] {
      StepOk(s, ms[0]);
      StepKeepsSingle(s, ms[0]);
      RunKeepsSingle(Step(s, ms[0]), ms[1..]);
    }
  }

  /** The commit is one of this call with this request, in the history of the head. */
  predicate Raise(s: Sys, i: CommitId, x: nat, q: Request) {
    s.head < |s.commits| && i < |s.commits| && Anc(s.commits, i, s.head) && s.commits[i].cause == Acquires(x, q)
  }

  /** In every state of every run the call has raised the epochs of its paths at most once. */
  ghost predicate RaisesAtMostOnce(x: nat, q: Request) {
    forall s, i, j {:trigger Raise(s, i, x, q), Raise(s, j, x, q)} ::
      Reachable(s) && Raise(s, i, x, q) && Raise(s, j, x, q) ==> i == j
  }

  lemma OneTryOneRaise(s: Sys, i: CommitId, j: CommitId, x: nat, q: Request)
    requires Reachable(s) && Raise(s, i, x, q) && Raise(s, j, x, q) && q.attempts <= 1
    ensures i == j
  {
    var targets :| Later(Start(targets), s);
    var ms :| s == After(Start(targets), ms);
    assert CommitOk(Start(targets).commits, 0);
    RunKeepsSingle(Start(targets), ms);
    assert SameTry(s.commits, i, j);
  }

  /** Whatever the other coordinators and the network do, one call raises its epochs at most once if and only if it may
      try at most once; the default of three tries does not meet that. */
  lemma RaisesOnceExactly(x: nat, q: Request)
    requires Normal(q.paths)
    ensures RaisesAtMostOnce(x, q) <==> q.attempts <= 1
  {
    if q.attempts <= 1 {
      forall s, i, j | Reachable(s) && Raise(s, i, x, q) && Raise(s, j, x, q) ensures i == j { OneTryOneRaise(s, i, j, x, q); }
    } else {
      var s, i, j := EpochRaisedTwice(x, q);
      assert Raise(s, i, x, q) && Raise(s, j, x, q);
    }
  }
}
