/** What one step of a lease call does, in the terms of the records: when a path is taken, when a lease is released, what the
    receipts and events say; and for how long a lease keeps the others out. */
module FileLeaseEffects {
  import opened Wrappers
  import opened FileLeaseSpec
  import opened FileLeaseSafety
  import opened FileLeaseRuns

  // ---- What a step leaves ----

  /** The call ends without an answer; nothing else changes. */
  predicate Fails(s: Sys, t: Sys, x: nat) { t == s.(calls := s.calls[x := Failed]) }

  /** One commit is added on top of the head, and its update is sent. */
  predicate Sends(s: Sys, t: Sys, d: Commit) {
    && t.commits == s.commits + [d] && d.parent == Some(s.head) && t.sent == s.sent + {|s.commits|}
    && t.head == s.head && t.targets == s.targets && t.issued == s.issued
  }

  /** The receipt is for the request: its holder, its target, and for each path the record that the commit has. */
  predicate Names(r: Receipt, c: Commit, q: Request) {
    && r.holder == q.holder && r.target == q.target && r.predecessor == q.predecessor && |r.leases| == |q.paths|
    && forall i :: 0 <= i < |q.paths| ==>
         q.paths[i] in c.records && r.leases[i].path == q.paths[i] && Describes(r.leases[i], c.records[q.paths[i]])
  }

  /** The call gets a receipt for the records of the commit; nothing else changes. */
  predicate Gets(s: Sys, t: Sys, x: nat, id: CommitId, q: Request, replay: bool) {
    && x in t.calls && t.calls[x].Returned? && t.calls[x].answer.Some? && id < |s.commits|
    && var r := t.calls[x].answer.value;
    && r.commit == id && r.replay == replay && Names(r, s.commits[id], q)
    && t == s.(calls := s.calls[x := Returned(Some(r))], issued := s.issued + {r})
  }

  // ---- An attempt of acquire ----

  /** The lease is the request's own, and it still runs. */
  predicate Mine(r: Option<Record>, q: Request) {
    && r.Some? && r.value.held && r.value.holder == q.holder && r.value.target == q.target
    && r.value.predecessor == q.predecessor && q.now < r.value.expires
  }

  /** The commit takes exactly the requested paths, with the fence of each. */
  ghost predicate Takes(c: Commit, d: Commit, x: nat, q: Request, fences: map<Path, nat>) {
    && d.cause == Acquires(x, q) && d.events == c.events
    && (forall p {:trigger Find(d, p)} :: p !in q.paths ==> Find(d, p) == Find(c, p))
    && (forall p {:trigger Find(d, p)} :: p in q.paths ==>
          Find(d, p).Some? && TakenAs(Find(c, p), Find(d, p).value, p, q)
          && (p in fences ==> Find(d, p).value.fence == fences[p]))
  }

  lemma TakesPaths(c: Commit, id: CommitId, x: nat, q: Request, fences: map<Path, nat>)
    ensures Takes(c, Taken(id, c, x, q, fences), x, q, fences)
  { }

  lemma DecidesOn(c: Commit, q: Request)
    requires Normal(q.paths)
    ensures Decide(c, q) == Decision.Replay <==> forall p :: p in q.paths ==> Mine(Find(c, p), q)
    ensures Decide(c, q) == Build <==> forall p :: p in q.paths ==> Free(Find(c, p), q)
  {
    assert q.paths[0] in q.paths;
    BuildsExactly(c, q);
    if Decide(c, q) == Decision.Replay {
      forall p | p in q.paths ensures Mine(Find(c, p), q) {
        var i :| 0 <= i < |q.paths| && q.paths[i] == p;
        assert Replays(Find(c, q.paths[i]), q);
      }
    }
  }

  /** All paths are the request's own already, and a receipt repeats them; or all are free, and one commit takes them; or
      the call fails. */
  ghost predicate Attempted(s: Sys, t: Sys, x: nat, q: Request, n: nat, fences: map<Path, nat>)
    requires s.head < |s.commits|
  {
    var c := s.commits[s.head];
    if forall p :: p in q.paths ==> Mine(Find(c, p), q) then Gets(s, t, x, s.head, q, true)
    else if forall p :: p in q.paths ==> Free(Find(c, p), q) then
      && |t.commits| == |s.commits| + 1 && Sends(s, t, t.commits[|s.commits|]) && Takes(c, t.commits[|s.commits|], x, q, fences)
      && t.calls == s.calls[x := Acquiring(q, n, Some(|s.commits|))]
    else Fails(s, t, x)
  }

  lemma NamesRecords(s: Sys, id: CommitId, q: Request, replay: bool)
    requires SysOk(s) && id < |s.commits| && HasAll(s.commits[id], q.paths)
    ensures Names(ReceiptFor(s.commits, id, q, replay), s.commits[id], q)
  {
    forall i | 0 <= i < |q.paths| ensures s.commits[id].records[q.paths[i]].path == q.paths[i] {
      RecordsNamed(s.commits, id, q.paths[i]);
    }
  }

  lemma AttemptMeans(s: Sys, x: nat, q: Request, n: nat, fences: map<Path, nat>)
    requires SysOk(s) && x in s.calls && s.calls[x] == Acquiring(q, n, None)
    ensures Attempted(s, Step(s, Attempt(x, fences)), x, q, n, fences)
  {
    var c := s.commits[s.head];
    assert CallOk(s, x);
    DecidesOn(c, q);
    if Decide(c, q) == Decision.Replay {
      assert HasAll(c, q.paths) by { forall p | p in q.paths ensures p in c.records { assert Mine(Find(c, p), q); } }
      NamesRecords(s, s.head, q, true);
    } else if Decide(c, q) == Build {
      TakesPaths(c, s.head, x, q, fences);
    }
  }

  // ---- An attempt of release ----

  predicate FreedAlready(r: Option<Record>, receipt: Receipt, result: nat, l: Lease) {
    && r.Some? && !r.value.held && r.value.result == Some(result) && r.value.holder == receipt.holder
    && r.value.epoch == l.epoch && r.value.fence == l.fence
  }

  predicate StillHeld(r: Option<Record>, receipt: Receipt, l: Lease) {
    r == Some(l.digest) && r.value.held && r.value.holder == receipt.holder && r.value.epoch == l.epoch && r.value.fence == l.fence
  }

  /** The record after the release: one revision more, no longer held, with the result; everything else is as it was. */
  predicate FreedAs(before: Record, r: Record, result: nat) {
    && r.revision == before.revision + 1 && !r.held && r.result == Some(result) && r.prior == Some(before)
    && r == before.(revision := r.revision, held := r.held, result := r.result, prior := r.prior)
  }

  /** What the event of the release says. */
  predicate Tells(e: Event, before: Record, r: Record, receipt: Receipt, result: nat, at: int) {
    && e.path == before.path && e.holder == before.holder && e.target == before.target && e.predecessor == before.predecessor
    && e.result == result && e.revision == r.revision && e.epoch == before.epoch && e.fence == before.fence
    && e.acquired == before.acquired && e.expires == before.expires && e.releasedAt == at && e.commit == receipt.commit
    && e.acquisition == before && e.release == r
  }

  /** No other event is stored for this path and mutation. */
  predicate NoConflict(c: Commit, receipt: Receipt, result: nat, at: int, l: Lease) {
    var key := (receipt.holder.mutation, l.path);
    key in c.events ==>
      Find(c, l.path).Some? && FreedAs(Find(c, l.path).value, c.events[key].release, result)
      && Tells(c.events[key], Find(c, l.path).value, c.events[key].release, receipt, result, at)
  }

  predicate Releasable(c: Commit, receipt: Receipt, result: nat, at: int, l: Lease) {
    StillHeld(Find(c, l.path), receipt, l) && NoConflict(c, receipt, result, at, l)
  }

  predicate AllFreedAlready(c: Commit, receipt: Receipt, result: nat) {
    forall i :: 0 <= i < |receipt.leases| ==> FreedAlready(Find(c, receipt.leases[i].path), receipt, result, receipt.leases[i])
  }

  predicate AllReleasable(c: Commit, receipt: Receipt, result: nat, at: int) {
    forall i :: 0 <= i < |receipt.leases| ==> Releasable(c, receipt, result, at, receipt.leases[i])
  }

  /** The commit releases exactly the leased paths, and stores an event for each. */
  ghost predicate Frees(c: Commit, d: Commit, receipt: Receipt, result: nat, at: int) {
    && d.cause == Releases(receipt, result)
    && (forall p {:trigger Find(d, p)} :: p !in LeasePaths(receipt) ==> Find(d, p) == Find(c, p))
    && (forall l {:trigger l in receipt.leases} :: l in receipt.leases ==>
          && Find(c, l.path).Some? && Find(d, l.path).Some? && FreedAs(Find(c, l.path).value, Find(d, l.path).value, result)
          && (receipt.holder.mutation, l.path) in d.events
          && Tells(d.events[(receipt.holder.mutation, l.path)], Find(c, l.path).value, Find(d, l.path).value, receipt, result, at))
    && (forall k: (nat, Path) {:trigger k in d.events} :: k.0 != receipt.holder.mutation || k.1 !in LeasePaths(receipt) ==>
          (k in d.events <==> k in c.events) && (k in c.events ==> d.events[k] == c.events[k]))
  }

  lemma FreesPaths(c: Commit, id: CommitId, receipt: Receipt, result: nat, at: int)
    requires LeasePaths(receipt) <= c.records.Keys
    ensures Frees(c, Freed(id, c, receipt, result, at), receipt, result, at)
  {
    var d := Freed(id, c, receipt, result, at);
    forall l | l in receipt.leases
      ensures Find(c, l.path).Some? && Find(d, l.path).Some? && FreedAs(Find(c, l.path).value, Find(d, l.path).value, result)
      ensures (receipt.holder.mutation, l.path) in d.events
      ensures Tells(d.events[(receipt.holder.mutation, l.path)], Find(c, l.path).value, Find(d, l.path).value, receipt, result, at)
    {
      assert l.path in LeasePaths(receipt);
    }
  }

  lemma ReleasableIs(c: Commit, receipt: Receipt, result: nat, at: int, l: Lease)
    ensures Current(c, receipt.holder, l) && EventFits(c, receipt, result, at, l) <==> Releasable(c, receipt, result, at, l)
  { }

  lemma DecidesRelease(c: Commit, receipt: Receipt, result: nat, at: int)
    ensures DecideRelease(c, receipt, result, at) == ReleaseReplay <==> AllFreedAlready(c, receipt, result)
    ensures DecideRelease(c, receipt, result, at) == ReleaseBuild
            <==> !AllFreedAlready(c, receipt, result) && AllReleasable(c, receipt, result, at)
  {
    forall i | 0 <= i < |receipt.leases|
      ensures ReplaysRelease(c, receipt, result, receipt.leases[i])
              <==> FreedAlready(Find(c, receipt.leases[i].path), receipt, result, receipt.leases[i])
      ensures Current(c, receipt.holder, receipt.leases[i]) && EventFits(c, receipt, result, at, receipt.leases[i])
              <==> Releasable(c, receipt, result, at, receipt.leases[i])
    {
      ReleasableIs(c, receipt, result, at, receipt.leases[i]);
    }
  }

  /** All leases were released with this result already; or all may be released, and one commit does it; or the call
      fails. */
  ghost predicate ReleaseAttempted(s: Sys, t: Sys, x: nat, k: Call)
    requires s.head < |s.commits| && k.Releasing?
  {
    var c := s.commits[s.head];
    if AllFreedAlready(c, k.receipt, k.result) then t == s.(calls := s.calls[x := Returned(None)])
    else if AllReleasable(c, k.receipt, k.result, k.now) then
      && |t.commits| == |s.commits| + 1 && Sends(s, t, t.commits[|s.commits|])
      && Frees(c, t.commits[|s.commits|], k.receipt, k.result, k.now) && t.calls == s.calls[x := k.(sent := Some(|s.commits|))]
    else Fails(s, t, x)
  }

  lemma ReleaseMeans(s: Sys, x: nat, fences: map<Path, nat>)
    requires SysOk(s) && x in s.calls && s.calls[x].Releasing? && s.calls[x].sent.None?
    ensures ReleaseAttempted(s, Step(s, Attempt(x, fences)), x, s.calls[x])
  {
    var k, t := s.calls[x], Step(s, Attempt(x, fences));
    var c := s.commits[s.head];
    DecidesRelease(c, k.receipt, k.result, k.now);
    assert t == AttemptRelease(s, x, k);
    match DecideRelease(c, k.receipt, k.result, k.now) {
      case ReleaseBuild =>
        ReleaseChecks(c, k.receipt, k.result, k.now);
        FreesPaths(c, s.head, k.receipt, k.result, k.now);
        assert t.commits == s.commits + [Freed(s.head, c, k.receipt, k.result, k.now)];
      case ReleaseReplay => assert t == s.(calls := s.calls[x := Returned(None)]);
      case _ => assert Fails(s, t, x);
    }
  }

  // ---- The answer to an update ----

  /** The call succeeds with the records of its own commit. */
  predicate Succeeded(s: Sys, t: Sys, x: nat, k: Call)
    requires k.Acquiring? || k.Releasing?
  {
    && k.sent.Some?
    && if k.Acquiring? then Gets(s, t, x, k.sent.value, k.req, false) else t == s.(calls := s.calls[x := Returned(None)])
  }

  /** The call tries again, or fails after its last try. */
  predicate TriesAgain(s: Sys, t: Sys, x: nat, k: Call)
    requires k.Acquiring? || k.Releasing?
  {
    var tries := if k.Acquiring? then k.req.attempts else k.attempts;
    if k.attempt < tries then t == s.(calls := s.calls[x := k.(attempt := k.attempt + 1, sent := None)]) else Fails(s, t, x)
  }

  /** An update that was applied may be answered; any may be reported as failed, and then the call succeeds only if it
      finds its own commit at the head. */
  lemma AnswerMeans(s: Sys, x: nat, blind: bool)
    requires SysOk(s) && Waiting(s, x)
    ensures var k, t := s.calls[x], Step(s, Reply(x));
            if Anc(s.commits, k.sent.value, s.head) then Succeeded(s, t, x, k) else t == s
    ensures var k, t := s.calls[x], Step(s, Fault(x, blind));
            if !blind && k.sent.value == s.head then Succeeded(s, t, x, k) else TriesAgain(s, t, x, k)
  {
    var k := s.calls[x];
    assert CallOk(s, x);
    if k.Acquiring? {
      var id := k.sent.value;
      assert CommitOk(s.commits, id);
      forall p | p in k.req.paths ensures p in s.commits[id].records { assert Find(s.commits[id], p).Some?; }
      NamesRecords(s, id, k.req, false);
    }
  }

  // ---- requireAuthority ----

  /** A returned receipt carries authority exactly while the target is where it was, every leased path still has the very
      record of the lease, and none has expired. */
  lemma AuthorityMeans(s: Sys, r: Receipt, now: int)
    requires Reachable(s) && r in s.issued
    ensures Authority(s, r, now) <==>
              && r.target in s.targets && s.targets[r.target] == r.predecessor
              && forall i :: 0 <= i < |r.leases| ==>
                   Find(s.commits[s.head], r.leases[i].path) == Some(r.leases[i].digest) && now < r.leases[i].expires
  {
    ReachableOk(s);
    assert ReceiptOk(s.commits, s.head, r);
    forall i | 0 <= i < |r.leases|
      ensures Current(s.commits[s.head], r.holder, r.leases[i])
              <==> Find(s.commits[s.head], r.leases[i].path) == Some(r.leases[i].digest)
      ensures r.leases[i].expires == r.leases[i].digest.expires
    {
      assert LeaseOk(s.commits[r.commit], r, r.leases[i]);
    }
  }

  // ---- For how long a lease keeps others out ----

  /** The commit `j` takes the path, later than the commit `i` of `q` took it. */
  predicate TakesLater(s: Sys, i: CommitId, j: CommitId, p: Path) {
    && i < j < |s.commits| && Anc(s.commits, i, j) && s.commits[i].cause.Acquires? && s.commits[j].cause.Acquires?
    && p in s.commits[i].cause.req.paths && p in s.commits[j].cause.req.paths
  }

  /** Whoever takes a path from a lease is another holder, and comes when the time to live that the lease asked for is
      over. */
  lemma NextTaker(s: Sys, i: CommitId, j: CommitId, p: Path)
    requires Reachable(s) && TakesLater(s, i, j, p)
    ensures s.commits[j].parent.Some? && s.commits[j].parent.value < |s.commits|
    ensures var q, q' := s.commits[i].cause.req, s.commits[j].cause.req;
            Find(s.commits[s.commits[j].parent.value], p) == Find(s.commits[i], p) ==>
              q'.holder != q.holder && q.now + q.ttl <= q'.now
  {
    ReachableOk(s);
    assert CommitOk(s.commits, i) && CommitOk(s.commits, j);
    assert Find(s.commits[i], p).Some? && Find(s.commits[j], p).Some?;
  }

  /** Exclusion: within the time to live that an acquire call asked for, no other call takes one of its paths, until the path
      was released. */
  lemma KeepsOthersOut(s: Sys, i: CommitId, j: CommitId, p: Path)
    requires Reachable(s) && Patient(s.commits) && TakesLater(s, i, j, p)
    requires s.commits[j].cause.req.now < s.commits[i].cause.req.now + s.commits[i].cause.req.ttl
    ensures s.commits[j].parent.Some? && s.commits[j].parent.value < |s.commits|
    ensures Revision(s.commits[s.commits[j].parent.value], p) > Revision(s.commits[i], p)
  {
    ReachableOk(s);
    assert CommitOk(s.commits, i) && CommitOk(s.commits, j);
    assert Find(s.commits[i], p).Some? && Find(s.commits[j], p).Some?;
    DeadlineGrows(s.commits, i, s.commits[j].parent.value, p);
  }
}
