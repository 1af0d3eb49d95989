/** Whole runs of the lease protocol: any number of coordinators, and a network that may apply an update late or
    report an applied one as failed. */
module FileLeaseRuns {
  import opened Wrappers
  import opened FileLeaseSpec
  import opened FileLeaseSafety

  /** What the calls in progress rely on. */
  ghost predicate CallOk(s: Sys, x: nat)
    requires x in s.calls
  {
    match s.calls[x]
    case Acquiring(q, _, sent) =>
      && Normal(q.paths)
      && (forall i :: 0 <= i < |s.commits| && s.commits[i].cause.Acquires? && s.commits[i].cause.call == x ==> s.commits[i].cause.req == q)
      && (sent.Some? ==> sent.value < |s.commits| && s.commits[sent.value].cause == Acquires(x, q))
    case Releasing(r, result, _, _, _, sent) =>
      r in s.issued && (sent.Some? ==> sent.value < |s.commits| && s.commits[sent.value].cause == Releases(r, result))
    case _ => true
  }

  ghost predicate OneRequestEach(cs: seq<Commit>) {
    forall i, j :: (0 <= i < |cs| && 0 <= j < |cs| && cs[i].cause.Acquires? && cs[j].cause.Acquires?
                    && cs[i].cause.call == cs[j].cause.call) ==> cs[i].cause.req == cs[j].cause.req
  }

  ghost predicate SysOk(s: Sys) {
    && s.head < |s.commits| && HistoryOk(s.commits) && OneRequestEach(s.commits)
    && (forall i :: 0 <= i < |s.commits| && s.commits[i].cause.Acquires? ==> s.commits[i].cause.call in s.calls)
    && (forall x {:trigger CallOk(s, x)} :: x in s.calls ==> CallOk(s, x))
    && (forall r {:trigger ReceiptOk(s.commits, s.head, r)} :: r in s.issued ==> ReceiptOk(s.commits, s.head, r))
  }

  /** The history is kept, and the head only moves forward. */
  predicate Grows(s: Sys, t: Sys) {
    && s.commits <= t.commits && s.head < |s.commits| && t.head < |t.commits| && Anc(t.commits, s.head, t.head)
    && s.issued <= t.issued
  }

  // ---- The history grows by good commits ----

  lemma ReceiptAppend(cs: seq<Commit>, d: Commit, head: CommitId, r: Receipt)
    requires head < |cs| && ReceiptOk(cs, head, r)
    ensures ReceiptOk(cs + [d], head, r)
  {
    AncAppend(cs, d, r.commit, head);
    forall l | l in r.leases ensures LeaseOk((cs + [d])[r.commit], r, l) { }
  }

  lemma HistoryAppend(cs: seq<Commit>, d: Commit)
    requires HistoryOk(cs) && d.parent.Some? && d.parent.value < |cs|
    requires match d.cause
             case Initial => false
             case Acquires(_, q) => AcquireCommit(cs[d.parent.value], d, q)
             case Releases(r, result) => ReceiptOk(cs, d.parent.value, r) && ReleaseCommit(cs[d.parent.value], d, r, result)
    ensures HistoryOk(cs + [d])
  {
    var all := cs + [d];
    forall i | 0 <= i < |all| ensures CommitOk(all, i) {
      if i < |cs| {
        assert CommitOk(cs, i) && all[i] == cs[i];
        if cs[i].cause.Releases? { ReceiptAppend(cs, d, cs[i].parent.value, cs[i].cause.receipt); }
      } else if d.cause.Releases? { ReceiptAppend(cs, d, d.parent.value, d.cause.receipt); }
    }
  }

  lemma TakenIsAcquire(c: Commit, id: CommitId, x: nat, q: Request, fences: map<Path, nat>)
    requires Normal(q.paths) && Decide(c, q) == Build
    ensures AcquireCommit(c, Taken(id, c, x, q, fences), q)
  {
    var d := Taken(id, c, x, q, fences);
    forall p | p in q.paths
      ensures Find(d, p).Some? && TakenPath(Find(c, p), Find(d, p).value, p, q)
    {
      var i :| 0 <= i < |q.paths| && q.paths[i] == p;
      assert !HeldBy(Find(c, q.paths[i]), q.holder) && !Locks(Find(c, q.paths[i]), q);
    }
  }

  /** All leases of a receipt that may be released are current, and their events fit. */
  lemma ReleaseChecks(c: Commit, r: Receipt, result: nat, at: int)
    requires DecideRelease(c, r, result, at) == ReleaseBuild
    ensures forall l :: l in r.leases ==> Current(c, r.holder, l) && EventFits(c, r, result, at, l)
    ensures LeasePaths(r) <= c.records.Keys
  {
    forall l | l in r.leases ensures Current(c, r.holder, l) && EventFits(c, r, result, at, l) {
      var i :| 0 <= i < |r.leases| && r.leases[i] == l;
      assert Current(c, r.holder, r.leases[i]) && EventFits(c, r, result, at, r.leases[i]);
    }
    forall p | p in LeasePaths(r) ensures p in c.records { var l := LeaseInPaths(r, p); }
  }

  /** The release of one current lease, and its event. */
  lemma FreesLease(cs: seq<Commit>, id: CommitId, r: Receipt, result: nat, at: int, l: Lease)
    requires id < |cs| && ReceiptOk(cs, id, r) && l in r.leases && Current(cs[id], r.holder, l)
    requires LeasePaths(r) <= cs[id].records.Keys
    ensures FreedBy(cs[id], Freed(id, cs[id], r, result, at), r, result, l)
  {
    assert l.path in LeasePaths(r);
    assert LeaseOk(cs[r.commit], r, l);
  }

  lemma EventsKept(c: Commit, id: CommitId, r: Receipt, result: nat, at: int, k: (nat, Path))
    requires LeasePaths(r) <= c.records.Keys && k in c.events
    requires forall l :: l in r.leases ==> EventFits(c, r, result, at, l)
    ensures var d := Freed(id, c, r, result, at); k in d.events && d.events[k] == c.events[k]
  {
    if k.0 == r.holder.mutation && k.1 in LeasePaths(r) {
      var l := LeaseInPaths(r, k.1);
      assert EventFits(c, r, result, at, l) && k == (r.holder.mutation, l.path);
    }
  }

  lemma FreedIsRelease(cs: seq<Commit>, id: CommitId, r: Receipt, result: nat, at: int)
    requires HistoryOk(cs) && id < |cs| && ReceiptOk(cs, id, r) && DecideRelease(cs[id], r, result, at) == ReleaseBuild
    ensures LeasePaths(r) <= cs[id].records.Keys
    ensures ReleaseCommit(cs[id], Freed(id, cs[id], r, result, at), r, result)
  {
    var c := cs[id];
    ReleaseChecks(c, r, result, at);
    var d := Freed(id, c, r, result, at);
    forall l | l in r.leases ensures FreedBy(c, d, r, result, l) { FreesLease(cs, id, r, result, at, l); }
    forall k | k in c.events ensures k in d.events && d.events[k] == c.events[k] { EventsKept(c, id, r, result, at, k); }
  }

  // ---- Every move keeps every promise ----

  lemma ReceiptMoves(s: Sys, t: Sys, r: Receipt)
    requires Grows(s, t) && ReceiptOk(s.commits, s.head, r)
    ensures ReceiptOk(t.commits, t.head, r)
  {
    AncPrefix(s.commits, t.commits, r.commit, s.head);
    AncTwice(t.commits, r.commit, s.head, t.head);
    forall l | l in r.leases ensures LeaseOk(t.commits[r.commit], r, l) { assert t.commits[r.commit] == s.commits[r.commit]; }
  }

  lemma {:induction false} AncPrefix(cs: seq<Commit>, ds: seq<Commit>, a: CommitId, b: CommitId)
    requires cs <= ds && b < |cs|
    ensures Anc(ds, a, b) <==> Anc(cs, a, b)
    decreases b
  {
    assert ds[b] == cs[b];
    if a != b && cs[b].parent.Some? && cs[b].parent.value < b { AncPrefix(cs, ds, a, cs[b].parent.value); }
  }

  /** A move that only touches calls and receipts. */
  lemma SameHistoryOk(s: Sys, t: Sys)
    requires SysOk(s) && t.commits == s.commits && t.head == s.head && s.calls.Keys <= t.calls.Keys && s.issued <= t.issued
    requires forall x :: x in t.calls ==> (x in s.calls && t.calls[x] == s.calls[x]) || CallOk(t, x)
    requires forall r :: r in t.issued && r !in s.issued ==> ReceiptOk(s.commits, s.head, r)
    ensures SysOk(t) && Grows(s, t)
  {
    forall x | x in t.calls ensures CallOk(t, x) { if x in s.calls { assert CallOk(s, x); } }
    forall r | r in t.issued ensures ReceiptOk(t.commits, t.head, r) {
      if r in s.issued { assert ReceiptOk(s.commits, s.head, r); }
    }
  }

  /** The receipt of an acquire call names the records of a commit in the history of the head. */
  lemma ReceiptForOk(s: Sys, id: CommitId, q: Request, replay: bool)
    requires SysOk(s) && id < |s.commits| && Anc(s.commits, id, s.head) && Normal(q.paths) && HasAll(s.commits[id], q.paths)
    requires forall p :: p in q.paths ==>
               HeldBy(Find(s.commits[id], p), q.holder) && Binds(s.commits[id].records[p], q.holder, q.target, q.predecessor)
    requires !replay ==> s.commits[id].cause.Acquires? && s.commits[id].cause.req == q
    ensures ReceiptOk(s.commits, s.head, ReceiptFor(s.commits, id, q, replay))
  {
    var r := ReceiptFor(s.commits, id, q, replay);
    forall i | 0 <= i < |r.leases| ensures r.leases[i].path == q.paths[i] && LeaseOk(s.commits[id], r, r.leases[i]) {
      RecordsNamed(s.commits, id, q.paths[i]);
    }
  }

  lemma ReplayOk(s: Sys, x: nat, q: Request, n: nat, fences: map<Path, nat>)
    requires SysOk(s) && x in s.calls && s.calls[x] == Acquiring(q, n, None) && Decide(s.commits[s.head], q) == Replay
    ensures SysOk(AttemptAcquire(s, x, q, n, fences)) && Grows(s, AttemptAcquire(s, x, q, n, fences))
  {
    var c := s.commits[s.head];
    assert CallOk(s, x);
    forall p | p in q.paths ensures Replays(Find(c, p), q) {
      var i :| 0 <= i < |q.paths| && q.paths[i] == p;
      assert Replays(Find(c, q.paths[i]), q);
    }
    ReceiptForOk(s, s.head, q, true);
    SameHistoryOk(s, AttemptAcquire(s, x, q, n, fences));
  }

  lemma BuildOk(s: Sys, x: nat, d: Commit, k: Call)
    requires SysOk(s) && x in s.calls && d.parent == Some(s.head) && HistoryOk(s.commits + [d])
    requires (k.Acquiring? || k.Releasing?) && k.sent == Some(|s.commits|)
    requires s.calls[x].Acquiring? && k.Acquiring? ==> d.cause == Acquires(x, k.req) && k.req == s.calls[x].req
    requires s.calls[x].Releasing? && k.Releasing? ==> d.cause == Releases(k.receipt, k.result) && k.receipt == s.calls[x].receipt
    requires (s.calls[x].Acquiring? && k.Acquiring?) || (s.calls[x].Releasing? && k.Releasing?)
    ensures var t := s.(commits := s.commits + [d], sent := s.sent + {|s.commits|}, calls := s.calls[x := k]);
            SysOk(t) && Grows(s, t)
  {
    var t := s.(commits := s.commits + [d], sent := s.sent + {|s.commits|}, calls := s.calls[x := k]);
    assert CallOk(s, x);
    forall i, j | 0 <= i < |t.commits| && 0 <= j < |t.commits| && t.commits[i].cause.Acquires? && t.commits[j].cause.Acquires?
                  && t.commits[i].cause.call == t.commits[j].cause.call
      ensures t.commits[i].cause.req == t.commits[j].cause.req
    { }
    forall y | y in t.calls ensures CallOk(t, y) { assert CallOk(s, y); }
    forall r | r in t.issued ensures ReceiptOk(t.commits, t.head, r) {
      assert ReceiptOk(s.commits, s.head, r);
      ReceiptAppend(s.commits, d, s.head, r);
    }
  }

  lemma AttemptOk(s: Sys, x: nat, fences: map<Path, nat>)
    requires SysOk(s)
    ensures SysOk(Step(s, Attempt(x, fences))) && Grows(s, Step(s, Attempt(x, fences)))
  {
    if x in s.calls && s.calls[x].Acquiring? && s.calls[x].sent.None? { AttemptAcquireOk(s, x, fences); }
    else if x in s.calls && s.calls[x].Releasing? && s.calls[x].sent.None? { AttemptReleaseOk(s, x); }
  }

  lemma AttemptAcquireOk(s: Sys, x: nat, fences: map<Path, nat>)
    requires SysOk(s) && x in s.calls && s.calls[x].Acquiring? && s.calls[x].sent.None?
    ensures var t := AttemptAcquire(s, x, s.calls[x].req, s.calls[x].attempt, fences); SysOk(t) && Grows(s, t)
  {
    var q, n := s.calls[x].req, s.calls[x].attempt;
    var c := s.commits[s.head];
    assert CallOk(s, x);
    if Decide(c, q) == Replay { ReplayOk(s, x, q, n, fences); }
    else if Decide(c, q) == Build {
      var d := Taken(s.head, c, x, q, fences);
      TakenIsAcquire(c, s.head, x, q, fences);
      HistoryAppend(s.commits, d);
      BuildOk(s, x, d, Acquiring(q, n, Some(|s.commits|)));
    } else { SameHistoryOk(s, AttemptAcquire(s, x, q, n, fences)); }
  }

  lemma AttemptReleaseOk(s: Sys, x: nat)
    requires SysOk(s) && x in s.calls && s.calls[x].Releasing? && s.calls[x].sent.None?
    ensures var t := AttemptRelease(s, x, s.calls[x]); SysOk(t) && Grows(s, t)
  {
    var k := s.calls[x];
    assert CallOk(s, x) && ReceiptOk(s.commits, s.head, k.receipt);
    if DecideRelease(s.commits[s.head], k.receipt, k.result, k.now) == ReleaseBuild {
      var d := Freed(s.head, s.commits[s.head], k.receipt, k.result, k.now);
      FreedIsRelease(s.commits, s.head, k.receipt, k.result, k.now);
      HistoryAppend(s.commits, d);
      BuildOk(s, x, d, Releasing(k.receipt, k.result, k.now, k.attempts, k.attempt, Some(|s.commits|)));
    } else { SameHistoryOk(s, AttemptRelease(s, x, k)); }
  }

  lemma SucceedOk(s: Sys, x: nat)
    requires SysOk(s) && Waiting(s, x) && Anc(s.commits, s.calls[x].sent.value, s.head)
    ensures SysOk(Succeed(s, x)) && Grows(s, Succeed(s, x))
  {
    var k := s.calls[x];
    assert CallOk(s, x);
    if k.Acquiring? {
      var id := k.sent.value;
      assert CommitOk(s.commits, id);
      forall p | p in k.req.paths
        ensures HeldBy(Find(s.commits[id], p), k.req.holder)
                && Binds(s.commits[id].records[p], k.req.holder, k.req.target, k.req.predecessor)
      { assert Find(s.commits[id], p).Some?; }
      ReceiptForOk(s, id, k.req, false);
    }
    SameHistoryOk(s, Succeed(s, x));
  }

  lemma DeliverOk(s: Sys, c: CommitId)
    requires SysOk(s)
    ensures SysOk(Step(s, Deliver(c))) && Grows(s, Step(s, Deliver(c)))
  {
    var t := Step(s, Deliver(c));
    forall x | x in t.calls ensures CallOk(t, x) { assert CallOk(s, x); }
    forall r | r in t.issued ensures ReceiptOk(t.commits, t.head, r) {
      assert ReceiptOk(s.commits, s.head, r);
      ReceiptMoves(s, t, r);
    }
  }

  lemma {:induction false} FoundOrigin(cs: seq<Commit>, cursor: CommitId, p: Path, r: Record, depth: nat)
    requires HistoryOk(cs) && cursor < |cs| && FindAcquisition(cs, cursor, p, r, depth).Some?
    ensures var c := FindAcquisition(cs, cursor, p, r, depth).value;
            c < |cs| && Anc(cs, c, cursor) && Find(cs[c], p) == Some(r)
    decreases depth
  {
    assert CommitOk(cs, cursor);
    if cs[cursor].parent.Some? && Find(cs[cs[cursor].parent.value], p) == Some(r) {
      FoundOrigin(cs, cs[cursor].parent.value, p, r, depth - 1);
    }
  }

  /** A recovered receipt is as good as one that an acquire call returned. */
  lemma RecoveredOk(s: Sys, paths: seq<Path>, h: Holder, target: nat, predecessor: nat, result: nat)
    requires SysOk(s) && RecoverApplied(s, paths, h, target, predecessor, result).Some?
    ensures ReceiptOk(s.commits, s.head, RecoverApplied(s, paths, h, target, predecessor, result).value)
  {
    var r := RecoverApplied(s, paths, h, target, predecessor, result).value;
    var rows := Rows(s.commits[s.head], paths);
    assert rows[0] == s.commits[s.head].records[paths[0]];
    RecordsNamed(s.commits, s.head, paths[0]);
    RestoredOk(s, rows[0], h, target, predecessor, result);
    forall i | 0 <= i < |r.leases| ensures r.leases[i].path == paths[i] && LeaseOk(s.commits[r.commit], r, r.leases[i]) {
      assert Origin(s, rows[i], h, target, predecessor, result) == Some(r.commit);
      RecordsNamed(s.commits, s.head, paths[i]);
      RestoredOk(s, rows[i], h, target, predecessor, result);
    }
  }

  lemma RestoredOk(s: Sys, r: Record, h: Holder, target: nat, predecessor: nat, result: nat)
    requires SysOk(s) && Find(s.commits[s.head], r.path) == Some(r)
    requires Origin(s, r, h, target, predecessor, result).Some?
    ensures var c := Origin(s, r, h, target, predecessor, result).value;
            && c < |s.commits| && Anc(s.commits, c, s.head)
            && Restored(s.commits[s.head], r, h).path == r.path
            && LeaseOk(s.commits[c], Receipt(c, target, predecessor, h, [], true), Restored(s.commits[s.head], r, h))
  {
    if r.held { FoundOrigin(s.commits, s.head, r.path, r, HISTORY_LIMIT); }
    else { ReleasedHaveEvents(s.commits, s.head, r.path); }
  }

  lemma StepOk(s: Sys, m: Move)
    requires SysOk(s)
    ensures SysOk(Step(s, m)) && Grows(s, Step(s, m))
  {
    match m {
      case BeginAcquire(x, q) => SameHistoryOk(s, Step(s, m));
      case BeginRelease(x, r, result, now, attempts) => SameHistoryOk(s, Step(s, m));
      case Attempt(x, fences) => AttemptOk(s, x, fences);
      case Deliver(c) => DeliverOk(s, c);
      case Reply(x) =>
        if Waiting(s, x) && Anc(s.commits, s.calls[x].sent.value, s.head) { SucceedOk(s, x); }
      case Fault(x, blind) => FaultOk(s, x, blind);
      case MoveTarget(t, sha) => SameHistoryOk(s, Step(s, m));
      case RecoverMove(paths, h, t, p, result) =>
        if RecoverApplied(s, paths, h, t, p, result).Some? { RecoveredOk(s, paths, h, t, p, result); }
        SameHistoryOk(s, Step(s, m));
    }
  }

  lemma FaultOk(s: Sys, x: nat, blind: bool)
    requires SysOk(s)
    ensures SysOk(Step(s, Fault(x, blind))) && Grows(s, Step(s, Fault(x, blind)))
  {
    if Waiting(s, x) {
      if !blind && s.calls[x].sent.value == s.head { SucceedOk(s, x); }
      else {
        assert CallOk(s, x);
        SameHistoryOk(s, Retry(s, x));
      }
    }
  }

  // ---- Runs ----

  lemma {:induction false} AfterMore(s: Sys, ms: seq<Move>, more: seq<Move>)
    requires s.head < |s.commits|
    ensures After(s, ms + more) == After(After(s, ms), more)
    decreases |ms|
  {
    if ms == [] { assert ms + more == more; }
    else {
      assert (ms + more)[1..] == ms[1..] + more;
      AfterMore(Step(s, ms[0]), ms[1..], more);
    }
  }

  ghost predicate Later(s: Sys, t: Sys) {
    s.head < |s.commits| && t.head < |t.commits| && exists ms :: t == After(s, ms)
  }

  ghost predicate Reachable(s: Sys) { exists targets :: Later(Start(targets), s) }

  lemma GrowsTwice(s: Sys, t: Sys, u: Sys)
    requires Grows(s, t) && Grows(t, u)
    ensures Grows(s, u)
  {
    AncPrefix(t.commits, u.commits, s.head, t.head);
    AncTwice(u.commits, s.head, t.head, u.head);
  }

  lemma {:induction false} RunOk(s: Sys, ms: seq<Move>)
    requires SysOk(s)
    ensures SysOk(After(s, ms)) && Grows(s, After(s, ms))
    decreases |ms|
  {
    if ms != [] {
      StepOk(s, ms[0]);
      RunOk(Step(s, ms[0]), ms[1..]);
      GrowsTwice(s, Step(s, ms[0]), After(s, ms));
    }
  }

  lemma ReachableOk(s: Sys)
    requires Reachable(s)
    ensures SysOk(s)
  {
    var targets :| Later(Start(targets), s);
    var ms :| s == After(Start(targets), ms);
    assert CommitOk(Start(targets).commits, 0);
    RunOk(Start(targets), ms);
  }

  lemma LaterOk(s: Sys, t: Sys)
    requires Reachable(s) && Later(s, t)
    ensures SysOk(s) && SysOk(t) && Grows(s, t)
  {
    ReachableOk(s);
    var ms :| t == After(s, ms);
    RunOk(s, ms);
  }

  // ---- The promises ----

  /** All or none: the commit of an acquire call gives every requested path a new record with the next epoch, held from
      the time of the request for its time to live, each free or expired at that time, and leaves all other paths alone. */
  lemma TakesAllOrNone(s: Sys, i: CommitId, p: Path)
    requires Reachable(s) && i < |s.commits| && s.commits[i].cause.Acquires?
    ensures s.commits[i].parent.Some? && s.commits[i].parent.value < i
    ensures var q, before, now := s.commits[i].cause.req, Find(s.commits[s.commits[i].parent.value], p), Find(s.commits[i], p);
            if p in q.paths then
              && now.Some? && now.value.held && now.value.holder == q.holder
              && now.value.target == q.target && now.value.predecessor == q.predecessor
              && now.value.acquired == q.now && now.value.expires == q.now + q.ttl
              && now.value.epoch == (if before.Some? then before.value.epoch else 0) + 1
              && now.value.revision == (if before.Some? then before.value.revision else 0)
              && now.value.result.None? && now.value.prior == before
              && (before.Some? && before.value.held ==> before.value.holder != q.holder && before.value.expires <= q.now)
            else now == before
  {
    ReachableOk(s);
    assert CommitOk(s.commits, i);
    assert p in s.commits[i].cause.req.paths ==> Find(s.commits[i], p).Some?;
    assert p !in s.commits[i].cause.req.paths ==> Find(s.commits[i], p) == Find(s.commits[s.commits[i].parent.value], p);
  }

  /** A returned receipt names a commit in the history of the head that holds exactly its leases. */
  lemma ReceiptsAreDurable(s: Sys, t: Sys, r: Receipt, l: Lease)
    requires Reachable(s) && Later(s, t) && r in s.issued && l in r.leases
    ensures r.commit < |t.commits| && Anc(t.commits, r.commit, t.head)
    ensures Find(t.commits[r.commit], l.path) == Some(l.digest) && Describes(l, l.digest)
  {
    LaterOk(s, t);
    assert ReceiptOk(t.commits, t.head, r);
    assert LeaseOk(t.commits[r.commit], r, l);
  }

  /** Once a path of a receipt has another record, be it released or of a later epoch, the receipt never passes
      `requireAuthority` again, and `release` never again releases anything for it; after a later epoch it does not even
      answer a replay. */
  lemma FencedForEver(s: Sys, t: Sys, r: Receipt, i: nat, result: nat, now: int)
    requires Reachable(s) && Later(s, t) && r in s.issued && i < |r.leases|
    requires Find(s.commits[s.head], r.leases[i].path) != Some(r.leases[i].digest)
    ensures !Authority(t, r, now)
    ensures DecideRelease(t.commits[t.head], r, result, now) == ReleaseReplay
            || DecideRelease(t.commits[t.head], r, result, now) == FencedOut
    ensures var record := Find(s.commits[s.head], r.leases[i].path);
            record.Some? && record.value.epoch > r.leases[i].epoch ==>
              DecideRelease(t.commits[t.head], r, result, now) == FencedOut
  {
    LaterOk(s, t);
    var l := r.leases[i];
    assert ReceiptOk(s.commits, s.head, r) && LeaseOk(s.commits[r.commit], r, l);
    RankAlong(s.commits, r.commit, s.head, l.path);
    assert t.commits[s.head] == s.commits[s.head];
    RankAlong(t.commits, s.head, t.head, l.path);
    assert !Current(t.commits[t.head], r.holder, r.leases[i]);
  }

  /** `path_revision` is the number of release events stored for the path. */
  lemma RevisionsCountReleases(s: Sys, p: Path)
    requires Reachable(s)
    ensures Revision(s.commits[s.head], p) == |EventsFor(s.commits[s.head], p)|
  {
    ReachableOk(s);
    RevisionIsEventCount(s.commits, s.head, p);
  }

  // ---- How often one call can raise an epoch ----

  /** Every acquire call of the history asked for a positive time to live. */
  ghost predicate Patient(cs: seq<Commit>) {
    forall i :: 0 <= i < |cs| && cs[i].cause.Acquires? ==> cs[i].cause.req.ttl > 0
  }

  /** Without a release, each new holder's lease ends after the lease that it replaced. */
  lemma {:induction false} DeadlineGrows(cs: seq<Commit>, a: CommitId, b: CommitId, p: Path)
    requires HistoryOk(cs) && Patient(cs) && b < |cs| && a < |cs| && Anc(cs, a, b)
    requires Find(cs[a], p).Some? && Find(cs[a], p).value.held
    ensures Find(cs[b], p).Some? && Revision(cs[a], p) <= Revision(cs[b], p)
    ensures Revision(cs[a], p) == Revision(cs[b], p) ==>
              Find(cs[b], p).value.held && (Find(cs[b], p) == Find(cs[a], p) || Find(cs[b], p).value.expires > Find(cs[a], p).value.expires)
    decreases b
  {
    if a != b {
      assert CommitOk(cs, b);
      var q := cs[b].parent.value;
      DeadlineGrows(cs, a, q, p);
      match cs[b].cause {
        case Acquires(_, req) => assert Find(cs[b], p) == Find(cs[q], p) || p in req.paths;
        case Releases(r, result) =>
          if p in LeasePaths(r) { var l := LeaseInPaths(r, p); assert FreedBy(cs[q], cs[b], r, result, l); }
          else { assert Find(cs[b], p) == Find(cs[q], p); }
      }
    }
  }

  /** The next commit of the call arrives at once, and gives every requested path the next epoch. */
  ghost predicate RaisesNow(s: Sys, x: nat, q: Request, fences: map<Path, nat>)
    requires s.head < |s.commits|
  {
    var t := Step(Step(s, Attempt(x, fences)), Deliver(|s.commits|));
    && t.head == |s.commits| && t.commits[t.head].cause == Acquires(x, q)
    && forall p :: p in q.paths ==>
         Find(t.commits[t.head], p).Some?
         && Find(t.commits[t.head], p).value.epoch == (if p in s.commits[s.head].records then s.commits[s.head].records[p].epoch else 0) + 1
  }

  /** A call that tries again although its earlier commit is already in the history raises all its epochs a second time
      exactly when no requested path is held by its holder or locked for it; and then every requested path was released
      in between. */
  lemma SecondRaise(s: Sys, x: nat, q: Request, n: nat, i: CommitId, fences: map<Path, nat>)
    requires Reachable(s) && Patient(s.commits) && x in s.calls && s.calls[x] == Acquiring(q, n, None)
    requires i < |s.commits| && s.commits[i].cause == Acquires(x, q) && Anc(s.commits, i, s.head)
    ensures var c := s.commits[s.head];
            && (RaisesNow(s, x, q, fences) <==>
                  forall p :: p in q.paths ==> !HeldBy(Find(c, p), q.holder) && !Locks(Find(c, p), q))
            && (RaisesNow(s, x, q, fences) ==> forall p :: p in q.paths ==> Revision(c, p) > Revision(s.commits[i], p))
  {
    var c := s.commits[s.head];
    ReachableOk(s);
    assert CommitOk(s.commits, i) && CallOk(s, x);
    BuildsExactly(c, q);
    if Decide(c, q) == Build {
      BuildRaises(s, x, q, n, fences);
      forall p | p in q.paths ensures Revision(c, p) > Revision(s.commits[i], p) {
        assert Find(s.commits[i], p).Some?;
        DeadlineGrows(s.commits, i, s.head, p);
      }
    } else { NoBuildNoRaise(s, x, q, n, fences); }
  }

  lemma BuildsExactly(c: Commit, q: Request)
    requires Normal(q.paths)
    ensures Decide(c, q) == Build <==> forall p :: p in q.paths ==> !HeldBy(Find(c, p), q.holder) && !Locks(Find(c, p), q)
  {
    assert q.paths[0] in q.paths;
    if Decide(c, q) == Build {
      forall p | p in q.paths ensures !HeldBy(Find(c, p), q.holder) && !Locks(Find(c, p), q) {
        var j :| 0 <= j < |q.paths| && q.paths[j] == p;
        assert !HeldBy(Find(c, q.paths[j]), q.holder) && !Locks(Find(c, q.paths[j]), q);
      }
    }
  }

  lemma BuildRaises(s: Sys, x: nat, q: Request, n: nat, fences: map<Path, nat>)
    requires SysOk(s) && x in s.calls && s.calls[x] == Acquiring(q, n, None) && Decide(s.commits[s.head], q) == Build
    ensures RaisesNow(s, x, q, fences)
  {
    var u := Step(s, Attempt(x, fences));
    AncAppend(s.commits, u.commits[|s.commits|], s.head, s.head);
    assert Anc(u.commits, s.head, |s.commits|);
  }

  lemma NoBuildNoRaise(s: Sys, x: nat, q: Request, n: nat, fences: map<Path, nat>)
    requires SysOk(s) && x in s.calls && s.calls[x] == Acquiring(q, n, None) && Decide(s.commits[s.head], q) != Build
    ensures !RaisesNow(s, x, q, fences)
  { }

  /** One acquire call raises the epoch of a path at most once, unless the path was released in between: two commits of
      the same call in the history always have a release of every requested path between them. */
  lemma RaisesOnceUnlessReleased(s: Sys, i: CommitId, j: CommitId, p: Path)
    requires Reachable(s) && Patient(s.commits) && i < j < |s.commits|
    requires s.commits[i].cause.Acquires? && s.commits[j].cause.Acquires? && s.commits[i].cause.call == s.commits[j].cause.call
    requires Anc(s.commits, i, s.head) && Anc(s.commits, j, s.head) && p in s.commits[i].cause.req.paths
    ensures s.commits[j].cause == s.commits[i].cause && s.commits[j].parent.Some? && s.commits[j].parent.value < j
    ensures Revision(s.commits[s.commits[j].parent.value], p) > Revision(s.commits[i], p)
  {
    ReachableOk(s);
    AncLine(s.commits, i, j, s.head);
    assert CommitOk(s.commits, i) && CommitOk(s.commits, j);
    assert Find(s.commits[i], p).Some? && Find(s.commits[j], p).Some?;
    DeadlineGrows(s.commits, i, s.commits[j].parent.value, p);
  }
}
