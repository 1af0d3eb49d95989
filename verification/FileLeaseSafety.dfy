/** What every commit of the lease branch, and every state of the system, keeps. */
module FileLeaseSafety {
  import opened Wrappers
  import opened FileLeaseSpec

  // ---- One commit and its parent ----

  /** Nobody else holds the path at the time of the request, and its own holder does not hold it at all. */
  predicate Free(before: Option<Record>, q: Request) {
    before.Some? && before.value.held ==> before.value.holder != q.holder && before.value.expires <= q.now
  }

  /** The record of a new lease: of the next epoch, and from the time of the request until the time to live is over. */
  predicate TakenAs(before: Option<Record>, r: Record, p: Path, q: Request) {
    && r.path == p && r.held && r.result.None? && r.prior == before
    && r.holder == q.holder && r.target == q.target && r.predecessor == q.predecessor
    && r.acquired == q.now && r.expires == q.now + q.ttl
    && r.epoch == (if before.Some? then before.value.epoch else 0) + 1
    && r.revision == (if before.Some? then before.value.revision else 0)
  }

  /** A free path is taken. */
  predicate TakenPath(before: Option<Record>, r: Record, p: Path, q: Request) { Free(before, q) && TakenAs(before, r, p, q) }

  ghost predicate AcquireCommit(c: Commit, d: Commit, q: Request) {
    && Normal(q.paths) && d.events == c.events
    && (forall p {:trigger Find(d, p)} :: p !in q.paths ==> Find(d, p) == Find(c, p))
    && (forall p {:trigger Find(d, p)} :: p in q.paths ==> Find(d, p).Some? && TakenPath(Find(c, p), Find(d, p).value, p, q))
  }

  /** The lease entry of a record. */
  predicate Describes(l: Lease, r: Record) {
    l.path == r.path && l.revision == r.revision && l.epoch == r.epoch && l.fence == r.fence && l.expires == r.expires && l.digest == r
  }

  predicate LeaseOk(c: Commit, r: Receipt, l: Lease) {
    Find(c, l.path) == Some(l.digest) && Describes(l, l.digest) && l.digest.held && Binds(l.digest, r.holder, r.target, r.predecessor)
  }

  /** The receipt names records of one commit, which is `head` or an ancestor of it, and the call's own commit unless it
      is a replay. */
  predicate ReceiptOk(cs: seq<Commit>, head: CommitId, r: Receipt) {
    && r.commit < |cs| && Anc(cs, r.commit, head) && r.leases != []
    && (!r.replay ==> cs[r.commit].cause.Acquires? && forall l :: l in r.leases ==> l.path in cs[r.commit].cause.req.paths)
    && (forall i, j :: 0 <= i < j < |r.leases| ==> r.leases[i].path < r.leases[j].path)
    && forall l :: l in r.leases ==> LeaseOk(cs[r.commit], r, l)
  }

  ghost predicate ReleaseCommit(c: Commit, d: Commit, r: Receipt, result: nat) {
    && (forall p {:trigger Find(d, p)} :: p !in LeasePaths(r) ==> Find(d, p) == Find(c, p))
    && (forall l {:trigger FreedBy(c, d, r, result, l)} :: l in r.leases ==> FreedBy(c, d, r, result, l))
    && (forall k {:trigger k in d.events} :: k in d.events && k !in c.events ==> k.0 == r.holder.mutation && k.1 in LeasePaths(r))
    && (forall k {:trigger k in c.events} :: k in c.events ==> k in d.events && d.events[k] == c.events[k])
  }

  /** One lease of the receipt is released, with a new event. */
  predicate FreedBy(c: Commit, d: Commit, r: Receipt, result: nat, l: Lease) {
    && Find(c, l.path) == Some(l.digest) && l.digest.held && l.digest.holder == r.holder
    && Find(d, l.path) == Some(ReleasedRecord(l.digest, result))
    && (r.holder.mutation, l.path) in d.events
    && var e := d.events[(r.holder.mutation, l.path)];
    && e.release == ReleasedRecord(l.digest, result) && e.acquisition == l.digest && e.commit == r.commit
    && e == EventRecord(l.digest, ReleasedRecord(l.digest, result), result, r.commit, e.releasedAt)
  }

  ghost predicate CommitOk(cs: seq<Commit>, i: CommitId)
    requires i < |cs|
  {
    var d := cs[i];
    if d.parent.None? then d.records == map[] && d.events == map[] && d.cause.Initial?
    else
      && d.parent.value < i
      && var c := cs[d.parent.value];
      match d.cause
      case Initial => false
      case Acquires(_, q) => AcquireCommit(c, d, q)
      case Releases(r, result) => ReceiptOk(cs, d.parent.value, r) && ReleaseCommit(c, d, r, result)
  }

  ghost predicate HistoryOk(cs: seq<Commit>) { forall i {:trigger CommitOk(cs, i)} :: 0 <= i < |cs| ==> CommitOk(cs, i) }

  // ---- Along the history ----

  lemma {:induction false} AncTwice(cs: seq<Commit>, a: CommitId, b: CommitId, c: CommitId)
    requires Anc(cs, a, b) && Anc(cs, b, c)
    ensures Anc(cs, a, c)
    decreases c
  {
    if b != c { AncTwice(cs, a, b, cs[c].parent.value); }
  }

  lemma {:induction false} AncBelow(cs: seq<Commit>, a: CommitId, b: CommitId)
    requires Anc(cs, a, b)
    ensures a <= b
    decreases b
  {
    if a != b { AncBelow(cs, a, cs[b].parent.value); }
  }

  /** Two ancestors of one commit lie on one line. */
  lemma {:induction false} AncLine(cs: seq<Commit>, a: CommitId, b: CommitId, c: CommitId)
    requires Anc(cs, a, c) && Anc(cs, b, c) && a <= b
    ensures Anc(cs, a, b)
    decreases c
  {
    AncBelow(cs, a, c);
    AncBelow(cs, b, c);
    if b != c {
      if a == c { AncBelow(cs, b, c); } else { AncLine(cs, a, b, cs[c].parent.value); }
    }
  }

  lemma {:induction false} AncAppend(cs: seq<Commit>, d: Commit, a: CommitId, b: CommitId)
    requires b < |cs|
    ensures Anc(cs + [d], a, b) <==> Anc(cs, a, b)
    decreases b
  {
    if a != b && cs[b].parent.Some? && cs[b].parent.value < b { AncAppend(cs, d, a, cs[b].parent.value); }
  }

  /** Every change of a record raises its rank. */
  function Rank(r: Option<Record>): nat {
    if r.None? then 0 else 2 * r.value.epoch + (if r.value.held then 0 else 1)
  }

  lemma LeaseInPaths(r: Receipt, p: Path) returns (l: Lease)
    requires p in LeasePaths(r)
    ensures l in r.leases && l.path == p
  { l :| l in r.leases && l.path == p; }

  lemma RankStep(cs: seq<Commit>, i: CommitId, p: Path)
    requires i < |cs| && CommitOk(cs, i) && cs[i].parent.Some?
    ensures var c := cs[cs[i].parent.value];
            Find(cs[i], p) == Find(c, p) || Rank(Find(cs[i], p)) > Rank(Find(c, p))
  {
    var c := cs[cs[i].parent.value];
    match cs[i].cause {
      case Acquires(_, q) =>
      case Releases(r, result) =>
        if p in LeasePaths(r) {
          var l := LeaseInPaths(r, p);
          assert FreedBy(c, cs[i], r, result, l);
        }
    }
  }

  lemma {:induction false} RankAlong(cs: seq<Commit>, a: CommitId, b: CommitId, p: Path)
    requires HistoryOk(cs) && b < |cs| && a < |cs| && Anc(cs, a, b)
    ensures Find(cs[b], p) == Find(cs[a], p) || Rank(Find(cs[b], p)) > Rank(Find(cs[a], p))
    decreases b
  {
    if a != b {
      assert CommitOk(cs, b);
      RankStep(cs, b, p);
      RankAlong(cs, a, cs[b].parent.value, p);
    }
  }

  /** Stored events never change. */
  lemma {:induction false} EventsStay(cs: seq<Commit>, a: CommitId, b: CommitId, k: (nat, Path))
    requires HistoryOk(cs) && b < |cs| && a < |cs| && Anc(cs, a, b) && k in cs[a].events
    ensures k in cs[b].events && cs[b].events[k] == cs[a].events[k]
    decreases b
  {
    if a != b {
      assert CommitOk(cs, b);
      EventsStay(cs, a, cs[b].parent.value, k);
    }
  }

  // ---- Revisions count release events ----

  function Revision(c: Commit, p: Path): nat { if p in c.records then c.records[p].revision else 0 }

  function EventsFor(c: Commit, p: Path): set<(nat, Path)> { set k | k in c.events && k.1 == p }

  /** Every stored event belongs to an earlier revision than the next one. */
  predicate EventsBelow(c: Commit, p: Path) { forall k :: k in c.events && k.1 == p ==> c.events[k].revision <= Revision(c, p) }

  lemma ReleaseCounts(c: Commit, d: Commit, r: Receipt, result: nat, p: Path)
    requires ReleaseCommit(c, d, r, result) && EventsBelow(c, p) && Revision(c, p) == |EventsFor(c, p)|
    ensures EventsBelow(d, p) && Revision(d, p) == |EventsFor(d, p)|
  {
    if p in LeasePaths(r) {
      var l := LeaseInPaths(r, p);
      assert FreedBy(c, d, r, result, l);
      var key := (r.holder.mutation, p);
      assert key !in c.events;
      assert EventsFor(d, p) == EventsFor(c, p) + {key};
    } else {
      assert Find(d, p) == Find(c, p);
      assert EventsFor(d, p) == EventsFor(c, p);
    }
  }

  /** `path_revision` is the number of release events stored for the path. */
  lemma {:induction false} RevisionIsEventCount(cs: seq<Commit>, i: CommitId, p: Path)
    requires HistoryOk(cs) && i < |cs|
    ensures Revision(cs[i], p) == |EventsFor(cs[i], p)| && EventsBelow(cs[i], p)
    decreases i
  {
    assert CommitOk(cs, i);
    if cs[i].parent.None? { assert EventsFor(cs[i], p) == {}; }
    else {
      var c := cs[cs[i].parent.value];
      RevisionIsEventCount(cs, cs[i].parent.value, p);
      match cs[i].cause {
        case Acquires(_, q) =>
          assert Find(cs[i], p) == Find(c, p) || p in q.paths;
          assert EventsFor(cs[i], p) == EventsFor(c, p);
        case Releases(r, result) => ReleaseCounts(c, cs[i], r, result, p);
      }
    }
  }

  // ---- Released records have their events ----

  /** The event of a released record, and the commit where the lease was acquired. */
  predicate ReleasedOk(cs: seq<Commit>, i: CommitId, p: Path)
    requires i < |cs|
  {
    Find(cs[i], p).Some? && !Find(cs[i], p).value.held ==>
      var r := Find(cs[i], p).value;
      && (r.holder.mutation, p) in cs[i].events
      && var e := cs[i].events[(r.holder.mutation, p)];
      && e.acquisition.held && e.acquisition.path == p && r.result.Some? && e.release == r
      && r == ReleasedRecord(e.acquisition, r.result.value)
      && e == EventRecord(e.acquisition, r, r.result.value, e.commit, e.releasedAt)
      && e.commit < |cs| && Anc(cs, e.commit, i) && Find(cs[e.commit], p) == Some(e.acquisition)
  }

  predicate PathOk(c: Commit, p: Path) { p in c.records ==> c.records[p].path == p && c.records[p].epoch >= 1 }

  lemma {:induction false} RecordsNamed(cs: seq<Commit>, i: CommitId, p: Path)
    requires HistoryOk(cs) && i < |cs|
    ensures PathOk(cs[i], p)
    decreases i
  {
    assert CommitOk(cs, i);
    if cs[i].parent.Some? {
      RecordsNamed(cs, cs[i].parent.value, p);
      var c := cs[cs[i].parent.value];
      match cs[i].cause {
        case Acquires(_, q) => assert Find(cs[i], p) == Find(c, p) || p in q.paths;
        case Releases(r, result) =>
          if p in LeasePaths(r) { var l := LeaseInPaths(r, p); assert FreedBy(c, cs[i], r, result, l); }
          else { assert Find(cs[i], p) == Find(c, p); }
      }
    }
  }

  lemma {:induction false} ReleasedHaveEvents(cs: seq<Commit>, i: CommitId, p: Path)
    requires HistoryOk(cs) && i < |cs|
    ensures ReleasedOk(cs, i, p)
    decreases i
  {
    assert CommitOk(cs, i);
    if cs[i].parent.Some? && Find(cs[i], p).Some? && !Find(cs[i], p).value.held {
      var q := cs[i].parent.value;
      ReleasedHaveEvents(cs, q, p);
      match cs[i].cause {
        case Acquires(_, req) => assert Find(cs[i], p) == Find(cs[q], p);
        case Releases(r, result) =>
          if p in LeasePaths(r) {
            var l := LeaseInPaths(r, p);
            assert FreedBy(cs[q], cs[i], r, result, l);
            RecordsNamed(cs, q, p);
            assert LeaseOk(cs[r.commit], r, l);
          } else { assert Find(cs[i], p) == Find(cs[q], p); }
      }
    }
  }
}
