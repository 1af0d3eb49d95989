/** The retry loops of `acquire` and `release`. The remote repository changes under them: what the other coordinators
    and the network do before and after each request is an input. */
module FileLeaseCoordinator {
  import opened Wrappers
  import opened FileLeaseSpec
  import opened FileLeaseSafety
  import opened FileLeaseRuns
  import opened FileLeaseEffects

  /** What one round of a retry loop meets: the moves of others before it reads the head and after it sent its update
      (which the network may deliver among them), and the answer that it sees. */
  datatype Round = Round(before: seq<Move>, fences: map<Path, nat>, after: seq<Move>, answered: bool, blind: bool)

  /** Nobody else moves on behalf of the call. */
  predicate Others(ms: seq<Move>, x: nat) {
    forall m :: m in ms ==>
      match m
      case BeginAcquire(y, _) => y != x
      case BeginRelease(y, _, _, _, _) => y != x
      case Attempt(y, _) => y != x
      case Reply(y) => y != x
      case Fault(y, _) => y != x
      case _ => true
  }

  /** A lease of the request: one that it held already and that still runs, or one from the time of the request until its
      time to live is over. */
  predicate LeasedTo(l: Lease, q: Request, replay: bool) {
    && Describes(l, l.digest) && l.digest.held && Binds(l.digest, q.holder, q.target, q.predecessor)
    && if replay then q.now < l.expires else l.digest.acquired == q.now && l.expires == q.now + q.ttl
  }

  /** The receipt is for the request: its holder, its target, and one lease for each path. */
  predicate AnswersTo(r: Receipt, q: Request) {
    && r.holder == q.holder && r.target == q.target && r.predecessor == q.predecessor && |r.leases| == |q.paths|
    && forall i :: 0 <= i < |q.paths| ==> r.leases[i].path == q.paths[i] && LeasedTo(r.leases[i], q, r.replay)
  }

  lemma ReplayAnswers(s: Sys, q: Request)
    requires SysOk(s) && Decide(s.commits[s.head], q) == Decision.Replay && HasAll(s.commits[s.head], q.paths)
    ensures AnswersTo(ReceiptFor(s.commits, s.head, q, true), q)
  {
    var c := s.commits[s.head];
    NamesRecords(s, s.head, q, true);
    forall i | 0 <= i < |q.paths| ensures LeasedTo(LeaseOf(c.records[q.paths[i]]), q, true) {
      assert Replays(Find(c, q.paths[i]), q);
    }
  }

  lemma CommitAnswers(s: Sys, id: CommitId, q: Request)
    requires SysOk(s) && id < |s.commits| && HasAll(s.commits[id], q.paths)
    requires s.commits[id].cause.Acquires? && s.commits[id].cause.req == q
    ensures AnswersTo(ReceiptFor(s.commits, id, q, false), q)
  {
    NamesRecords(s, id, q, false);
    assert CommitOk(s.commits, id);
    forall i | 0 <= i < |q.paths| ensures LeasedTo(LeaseOf(s.commits[id].records[q.paths[i]]), q, false) {
      assert q.paths[i] in q.paths && Find(s.commits[id], q.paths[i]).Some?;
    }
  }

  /** Every lease of the receipt is released with this result. */
  predicate AllReleased(c: Commit, r: Receipt, result: nat) {
    forall i :: 0 <= i < |r.leases| ==> ReplaysRelease(c, r, result, r.leases[i])
  }

  /** So it was at some commit in the history of the head. */
  ghost predicate WasReleased(s: Sys, r: Receipt, result: nat) {
    exists k: CommitId :: k < |s.commits| && Anc(s.commits, k, s.head) && AllReleased(s.commits[k], r, result)
  }

  /** The commit of a release releases every lease. */
  lemma ReleaseReleases(s: Sys, k: CommitId, r: Receipt, result: nat)
    requires SysOk(s) && k < |s.commits| && s.commits[k].cause == Releases(r, result)
    ensures AllReleased(s.commits[k], r, result)
  {
    assert CommitOk(s.commits, k);
    var c := s.commits[s.commits[k].parent.value];
    forall i | 0 <= i < |r.leases| ensures ReplaysRelease(s.commits[k], r, result, r.leases[i]) {
      assert r.leases[i] in r.leases && FreedBy(c, s.commits[k], r, result, r.leases[i]);
      assert LeaseOk(s.commits[r.commit], r, r.leases[i]);
    }
  }

  class Remote {
    var commits: seq<Commit>
    var head: CommitId
    var sent: set<CommitId>
    var targets: map<nat, nat>
    var calls: map<nat, Call>
    var issued: set<Receipt>

    function Value(): Sys reads this { Sys(commits, head, sent, targets, calls, issued) }

    constructor (t: map<nat, nat>)
      ensures Value() == Start(t)
    {
      commits, head, sent, targets, calls, issued := [Commit(None, map[], map[], Initial)], 0, {}, t, map[], {};
    }

    /** Others act. */
    method Elapse(ms: seq<Move>)
      requires head < |commits|
      modifies this
      ensures Value() == After(old(Value()), ms)
    {
      var i := 0;
      while i < |ms|
        invariant i <= |ms| && head < |commits| && After(Value(), ms[i..]) == After(old(Value()), ms)
      {
        assert ms[i..][1..] == ms[i + 1..];
        var t := Step(Value(), ms[i]);
        commits, head, sent, targets, calls, issued := t.commits, t.head, t.sent, t.targets, t.calls, t.issued;
        i := i + 1;
      }
    }

    /** `createCommitFromFiles`, and the update that is sent for it. */
    method CreateAndSend(c: Commit) returns (id: CommitId)
      modifies this`commits, this`sent
      ensures id == |old(commits)| && commits == old(commits) + [c] && sent == old(sent) + {id}
    {
      id := |commits|;
      commits := commits + [c];
      sent := sent + {id};
    }

    method Answer(x: nat, k: Call)
      modifies this`calls
      ensures calls == old(calls)[x := k]
    { calls := calls[x := k]; }

    method Issue(x: nat, r: Receipt)
      modifies this`calls, this`issued
      ensures calls == old(calls)[x := Returned(Some(r))] && issued == old(issued) + {r}
    { calls, issued := calls[x := Returned(Some(r))], issued + {r}; }

    // ---- acquire ----

    /** One round up to the update: reads the head, decides, and perhaps sends a commit. */
    method AttemptAcquire(x: nat, q: Request, n: nat, fences: map<Path, nat>) returns (receipt: Option<Receipt>, id: Option<CommitId>)
      requires SysOk(Value()) && x in calls && calls[x] == Acquiring(q, n, None)
      modifies this
      ensures Value() == Step(old(Value()), Attempt(x, fences)) && Attempted(old(Value()), Value(), x, q, n, fences)
      ensures receipt.Some? ==> receipt.value in issued && AnswersTo(receipt.value, q) && calls[x] == Returned(receipt)
      ensures id.Some? ==> receipt.None? && calls[x] == Acquiring(q, n, id)
      ensures receipt.None? && id.None? ==> calls[x] == Failed
    {
      AttemptMeans(Value(), x, q, n, fences);
      var read := commits[head];
      var decision := Decide(read, q);
      receipt, id := None, None;
      if decision == Decision.Replay && HasAll(read, q.paths) {
        var r := ReceiptFor(commits, head, q, true);
        ReplayAnswers(Value(), q);
        Issue(x, r);
        receipt := Some(r);
      } else if decision == Build {
        var created := CreateAndSend(Taken(head, read, x, q, fences));
        Answer(x, Acquiring(q, n, Some(created)));
        id := Some(created);
      } else {
        Answer(x, Failed);
      }
    }

    /** The answer to an update: success, or an error after which the ref is looked at once. */
    method Outcome(x: nat, id: CommitId, round: Round) returns (applied: bool, ghost move: Move)
      requires head < |commits| && Waiting(Value(), x) && calls[x].sent == Some(id)
      ensures move == (if round.answered && Anc(commits, id, head) then Reply(x) else Fault(x, round.blind))
      ensures applied == (if move.Reply? then true else !round.blind && id == head)
    {
      if round.answered && Anc(commits, id, head) {
        applied, move := true, Reply(x);
      } else {
        applied, move := !round.blind && id == head, Fault(x, round.blind);
      }
    }

    /** The retry loop is a run of the protocol, whatever the others do meanwhile. */
    method Acquire(x: nat, q: Request, rounds: seq<Round>) returns (receipt: Option<Receipt>, ghost script: seq<Move>)
      requires SysOk(Value()) && x !in calls && |rounds| >= q.attempts
      requires forall i :: 0 <= i < |rounds| ==> Others(rounds[i].before, x) && Others(rounds[i].after, x)
      modifies this
      ensures SysOk(Value()) && Value() == After(old(Value()), script)
      ensures receipt.Some? ==> receipt.value in issued && AnswersTo(receipt.value, q)
      ensures !Normal(q.paths) || q.target !in old(targets) || old(targets)[q.target] != q.predecessor ==>
                receipt.None? && Value() == old(Value())
    {
      ghost var start := Value();
      script := [];
      receipt := None;
      if !Normal(q.paths) || q.target !in targets || targets[q.target] != q.predecessor { return; }
      Answer(x, if q.attempts == 0 then Failed else Acquiring(q, 1, None));
      script := [BeginAcquire(x, q)];
      assert script[1..] == [];
      assert After(Step(start, script[0]), []) == Step(start, script[0]);
      RunOk(start, script);
      var attempt := 1;
      while attempt <= q.attempts
        invariant 1 <= attempt <= q.attempts + 1 && SysOk(Value()) && Value() == After(start, script) && receipt.None?
        invariant attempt <= q.attempts ==> x in calls && calls[x] == Acquiring(q, attempt, None)
        decreases q.attempts - attempt
      {
        var more;
        ghost var played;
        receipt, more, played := AcquireRound(x, q, attempt, rounds[attempt - 1]);
        AfterMore(start, script, played);
        script := script + played;
        if receipt.Some? || !more { break; }
        attempt := attempt + 1;
      }
    }

    /** One round of the loop; `more` asks for the next one. */
    method AcquireRound(x: nat, q: Request, n: nat, round: Round)
      returns (receipt: Option<Receipt>, more: bool, ghost played: seq<Move>)
      requires SysOk(Value()) && x in calls && calls[x] == Acquiring(q, n, None) && n <= q.attempts
      requires Others(round.before, x) && Others(round.after, x)
      modifies this
      ensures SysOk(Value()) && Value() == After(old(Value()), played)
      ensures receipt.Some? ==> receipt.value in issued && AnswersTo(receipt.value, q)
      ensures more ==> receipt.None? && n < q.attempts && x in calls && calls[x] == Acquiring(q, n + 1, None)
    {
      ghost var start := Value();
      var id;
      receipt, id, played := SendAcquire(x, q, n, round);
      more := false;
      if id.Some? {
        ghost var rest;
        receipt, more, rest := AwaitAcquire(x, q, n, id.value, round);
        AfterMore(start, played, rest);
        played := played + rest;
      }
    }

    /** The first part of a round, up to the update. */
    method SendAcquire(x: nat, q: Request, n: nat, round: Round)
      returns (receipt: Option<Receipt>, id: Option<CommitId>, ghost played: seq<Move>)
      requires SysOk(Value()) && x in calls && calls[x] == Acquiring(q, n, None) && Others(round.before, x)
      modifies this
      ensures SysOk(Value()) && Value() == After(old(Value()), played)
      ensures receipt.Some? ==> receipt.value in issued && AnswersTo(receipt.value, q)
      ensures id.Some? ==> receipt.None? && x in calls && calls[x] == Acquiring(q, n, id)
    {
      ghost var start := Value();
      OthersLeave(start, round.before, x);
      RunOk(start, round.before);
      Elapse(round.before);
      receipt, id := AttemptAcquire(x, q, n, round.fences);
      PlayOne(start, round.before, Attempt(x, round.fences));
      played := round.before + [Attempt(x, round.fences)];
    }

    /** The rest of a round, once the update is sent. */
    method AwaitAcquire(x: nat, q: Request, n: nat, id: CommitId, round: Round)
      returns (receipt: Option<Receipt>, more: bool, ghost played: seq<Move>)
      requires SysOk(Value()) && x in calls && calls[x] == Acquiring(q, n, Some(id)) && Others(round.after, x)
      modifies this
      ensures SysOk(Value()) && Value() == After(old(Value()), played)
      ensures receipt.Some? ==> receipt.value in issued && AnswersTo(receipt.value, q)
      ensures more ==> receipt.None? && n < q.attempts && x in calls && calls[x] == Acquiring(q, n + 1, None)
    {
      ghost var start := Value();
      OthersLeave(start, round.after, x);
      RunOk(start, round.after);
      Elapse(round.after);
      var applied;
      ghost var move;
      applied, move := Outcome(x, id, round);
      PlayOne(start, round.after, move);
      receipt, more := Settle(x, q, n, id, applied, move);
      played := round.after + [move];
    }

    /** The end of a round: the receipt, the next attempt or the failure. */
    method Settle(x: nat, q: Request, n: nat, id: CommitId, applied: bool, ghost move: Move)
      returns (receipt: Option<Receipt>, more: bool)
      requires SysOk(Value()) && x in calls && calls[x] == Acquiring(q, n, Some(id))
      requires (move == Reply(x) && applied && Anc(commits, id, head))
               || (move.Fault? && move.call == x && applied == (!move.blind && id == head))
      modifies this
      ensures SysOk(Value()) && Value() == Step(old(Value()), move)
      ensures receipt.Some? ==> receipt.value in issued && AnswersTo(receipt.value, q)
      ensures more ==> receipt.None? && n < q.attempts && x in calls && calls[x] == Acquiring(q, n + 1, None)
    {
      StepOk(Value(), move);
      assert CallOk(Value(), x) && CommitOk(commits, id);
      forall p | p in q.paths ensures p in commits[id].records { assert Find(commits[id], p).Some?; }
      receipt, more := None, false;
      if applied {
        var r := ReceiptFor(commits, id, q, false);
        CommitAnswers(Value(), id, q);
        Issue(x, r);
        receipt := Some(r);
      } else if n >= q.attempts {
        Answer(x, Failed);
      } else {
        Answer(x, Acquiring(q, n + 1, None));
        more := true;
      }
    }

    // ---- release ----

    /** One round up to the update of a release; `done` answers a replay. */
    method AttemptRelease(x: nat, k: Call) returns (done: bool, id: Option<CommitId>)
      requires SysOk(Value()) && k.Releasing? && k.sent.None? && x in calls && calls[x] == k
      modifies this
      ensures Value() == Step(old(Value()), Attempt(x, map[])) && ReleaseAttempted(old(Value()), Value(), x, k)
      ensures done ==> id.None? && WasReleased(Value(), k.receipt, k.result)
      ensures id.Some? ==> x in calls && calls[x] == Releasing(k.receipt, k.result, k.now, k.attempts, k.attempt, id)
    {
      ghost var start := Value();
      var read := commits[head];
      var decision := DecideRelease(read, k.receipt, k.result, k.now);
      done, id := false, None;
      if decision == ReleaseReplay {
        assert AllReleased(read, k.receipt, k.result) && Anc(commits, head, head);
        Answer(x, Returned(None));
        done := true;
      } else if decision == ReleaseBuild && LeasePaths(k.receipt) <= read.records.Keys {
        var created := CreateAndSend(Freed(head, read, k.receipt, k.result, k.now));
        Answer(x, Releasing(k.receipt, k.result, k.now, k.attempts, k.attempt, Some(created)));
        id := Some(created);
      } else {
        Answer(x, Failed);
      }
      assert Value() == Step(start, Attempt(x, map[]));
      ReleaseMeans(start, x, map[]);
    }

    method SettleRelease(x: nat, k: Call, applied: bool, ghost move: Move) returns (more: bool)
      requires SysOk(Value()) && k.Releasing? && k.sent.Some? && x in calls && calls[x] == k
      requires (move == Reply(x) && applied && Anc(commits, k.sent.value, head))
               || (move.Fault? && move.call == x && applied == (!move.blind && k.sent.value == head))
      modifies this
      ensures SysOk(Value()) && Value() == Step(old(Value()), move)
      ensures applied ==> WasReleased(Value(), k.receipt, k.result)
      ensures more ==> !applied && k.attempt < k.attempts && x in calls
                       && calls[x] == Releasing(k.receipt, k.result, k.now, k.attempts, k.attempt + 1, None)
    {
      StepOk(Value(), move);
      more := false;
      if applied {
        assert CallOk(Value(), x);
        ReleaseReleases(Value(), k.sent.value, k.receipt, k.result);
        Answer(x, Returned(None));
      } else if k.attempt >= k.attempts {
        Answer(x, Failed);
      } else {
        Answer(x, Releasing(k.receipt, k.result, k.now, k.attempts, k.attempt + 1, None));
        more := true;
      }
    }

    method ReleaseRound(x: nat, k: Call, round: Round) returns (done: bool, more: bool, ghost played: seq<Move>)
      requires SysOk(Value()) && k.Releasing? && k.sent.None? && x in calls && calls[x] == k
      requires Others(round.before, x) && Others(round.after, x)
      modifies this
      ensures SysOk(Value()) && Value() == After(old(Value()), played)
      ensures done ==> WasReleased(Value(), k.receipt, k.result)
      ensures more ==> !done && k.attempt < k.attempts && x in calls
                       && calls[x] == Releasing(k.receipt, k.result, k.now, k.attempts, k.attempt + 1, None)
    {
      ghost var start := Value();
      var id;
      done, id, played := SendRelease(x, k, round.before);
      more := false;
      if id.Some? {
        ghost var rest;
        done, more, rest := AwaitRelease(x, Releasing(k.receipt, k.result, k.now, k.attempts, k.attempt, id), round);
        AfterMore(start, played, rest);
        played := played + rest;
      }
    }

    /** The first part of a round, up to the update. */
    method SendRelease(x: nat, k: Call, before: seq<Move>) returns (done: bool, id: Option<CommitId>, ghost played: seq<Move>)
      requires SysOk(Value()) && k.Releasing? && k.sent.None? && x in calls && calls[x] == k && Others(before, x)
      modifies this
      ensures SysOk(Value()) && Value() == After(old(Value()), played)
      ensures done ==> id.None? && WasReleased(Value(), k.receipt, k.result)
      ensures id.Some? ==> x in calls && calls[x] == Releasing(k.receipt, k.result, k.now, k.attempts, k.attempt, id)
    {
      ghost var start := Value();
      OthersLeave(start, before, x);
      RunOk(start, before);
      Elapse(before);
      done, id := AttemptRelease(x, k);
      PlayOne(start, before, Attempt(x, map[]));
      played := before + [Attempt(x, map[])];
    }

    /** The rest of a round, once the update is sent. */
    method AwaitRelease(x: nat, k: Call, round: Round) returns (done: bool, more: bool, ghost played: seq<Move>)
      requires SysOk(Value()) && k.Releasing? && k.sent.Some? && x in calls && calls[x] == k && Others(round.after, x)
      modifies this
      ensures SysOk(Value()) && Value() == After(old(Value()), played)
      ensures done ==> WasReleased(Value(), k.receipt, k.result)
      ensures more ==> !done && k.attempt < k.attempts && x in calls
                       && calls[x] == Releasing(k.receipt, k.result, k.now, k.attempts, k.attempt + 1, None)
    {
      ghost var start := Value();
      OthersLeave(start, round.after, x);
      RunOk(start, round.after);
      Elapse(round.after);
      ghost var move;
      done, move := Outcome(x, k.sent.value, round);
      PlayOne(start, round.after, move);
      more := SettleRelease(x, k, done, move);
      played := round.after + [move];
    }

    /** The retry loop of `release`. */
    method Release(x: nat, r: Receipt, result: nat, now: int, attempts: nat, rounds: seq<Round>)
      returns (done: bool, ghost script: seq<Move>)
      requires SysOk(Value()) && x !in calls && r in issued && |rounds| >= attempts
      requires forall i :: 0 <= i < |rounds| ==> Others(rounds[i].before, x) && Others(rounds[i].after, x)
      modifies this
      ensures SysOk(Value()) && Value() == After(old(Value()), script)
      ensures done ==> WasReleased(Value(), r, result)
      ensures r.target !in old(targets) || old(targets)[r.target] != result ==> !done && Value() == old(Value())
    {
      ghost var start := Value();
      script, done := [], false;
      if r.target !in targets || targets[r.target] != result { return; }
      Answer(x, if attempts == 0 then Failed else Releasing(r, result, now, attempts, 1, None));
      script := [BeginRelease(x, r, result, now, attempts)];
      assert script[1..] == [];
      assert After(Step(start, script[0]), []) == Step(start, script[0]);
      RunOk(start, script);
      var attempt := 1;
      while attempt <= attempts
        invariant 1 <= attempt <= attempts + 1 && SysOk(Value()) && Value() == After(start, script)
        invariant !done
        invariant attempt <= attempts ==> x in calls && calls[x] == Releasing(r, result, now, attempts, attempt, None)
        decreases attempts - attempt
      {
        var more;
        ghost var played;
        done, more, played := ReleaseRound(x, Releasing(r, result, now, attempts, attempt, None), rounds[attempt - 1]);
        AfterMore(start, script, played);
        script := script + played;
        if done || !more { break; }
        attempt := attempt + 1;
      }
    }

    lemma PlayOne(s: Sys, ms: seq<Move>, m: Move)
      requires SysOk(s)
      ensures After(s, ms + [m]) == Step(After(s, ms), m)
      ensures SysOk(After(s, ms + [m]))
    {
      AfterMore(s, ms, [m]);
      assert [m][1..] == [];
      var t := After(s, ms);
      assert After(t, [m]) == Step(t, m) by { assert After(Step(t, m), []) == Step(t, m); }
      RunOk(s, ms + [m]);
    }
  }

  lemma OtherLeaves(s: Sys, m: Move, x: nat)
    requires s.head < |s.commits| && x in s.calls && Others([m], x)
    ensures x in Step(s, m).calls && Step(s, m).calls[x] == s.calls[x]
  { assert m in [m]; }

  /** What others do leaves the call's own state alone. */
  lemma {:induction false} OthersLeave(s: Sys, ms: seq<Move>, x: nat)
    requires s.head < |s.commits| && x in s.calls && Others(ms, x)
    ensures x in After(s, ms).calls && After(s, ms).calls[x] == s.calls[x]
    decreases |ms|
  {
    if ms != [] {
      assert ms[0] in ms && forall m :: m in ms[1..] ==> m in ms;
      OtherLeaves(s, ms[0], x);
      OthersLeave(Step(s, ms[0]), ms[1..], x);
    }
  }
}
