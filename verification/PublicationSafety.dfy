/** The publication chain: what verification accepts, and that every reachable head is accepted. */
module PublicationSafety {
  import opened Wrappers
  import opened PublicationSpec

  // ---- What verifyHistory accepts, in any repository ----

  /** The chain behind an envelope is sound down to its first revision. */
  predicate Good(g: Digests, k: Config, cs: Commits, e: Envelope)
    decreases e.body.revision
  {
    if e.body.revision == 0 then false
    else if e.body.revision == 1 then e.body.predecessorCommit in cs ==> cs[e.body.predecessorCommit].file.None?
    else
      && var read := ReadEnvelope(g, k, cs, e.body.predecessorCommit);
      && read.Ok? && read.value.Some? && Link(e, read.value.value).Ok? && Good(g, k, cs, read.value.value)
  }

  lemma {:induction false} WalkIsExact(g: Digests, k: Config, cs: Commits, e: Envelope, depth: nat, m: nat)
    requires e.body.revision >= 1
    ensures Walk(g, k, cs, e, depth) == Ok(m) <==>
              Good(g, k, cs, e) && m == depth + e.body.revision && m <= k.limit
    decreases e.body.revision
  {
    if depth + 1 <= k.limit && e.body.revision > 1 {
      var read := ReadEnvelope(g, k, cs, e.body.predecessorCommit);
      if read.Ok? && read.value.Some? && Link(e, read.value.value).Ok? {
        WalkIsExact(g, k, cs, read.value.value, depth + 1, m);
      }
    }
  }

  /** In any repository whatsoever, verification accepts a head and reports `n` revisions exactly when the head reads as
      a valid envelope of revision `n` with a sound chain behind it, and `n` is within the limit. */
  lemma VerificationIsExact(g: Digests, k: Config, cs: Commits, head: CommitId, n: nat)
    ensures VerifyHistory(g, k, cs, head) == Ok(n) <==>
              var read := ReadEnvelope(g, k, cs, head);
              read.Ok? && read.value.Some? && read.value.value.body.revision == n && n <= k.limit && Good(g, k, cs, read.value.value)
  {
    var read := ReadEnvelope(g, k, cs, head);
    if read.Ok? && read.value.Some? { WalkIsExact(g, k, cs, read.value.value, 0, n); }
  }

  // ---- Equal digests, equal chains ----

  ghost predicate CollisionFree(g: Digests) {
    forall a, b :: g.ofBody(a) == g.ofBody(b) ==> a == b
  }

  /** The envelopes of a sound chain, the newest first. */
  function ChainOf(g: Digests, k: Config, cs: Commits, e: Envelope): seq<Envelope>
    requires Good(g, k, cs, e)
    decreases e.body.revision
  {
    if e.body.revision == 1 then [e]
    else [e] + ChainOf(g, k, cs, ReadEnvelope(g, k, cs, e.body.predecessorCommit).value.value)
  }

  /** Two sound chains, in two repositories, with the same newest digest are the same chain. */
  lemma {:induction false} EqualDigestsEqualChains(g: Digests, k: Config, cs: Commits, ds: Commits, d: Envelope, e: Envelope)
    requires CollisionFree(g) && Good(g, k, cs, d) && Good(g, k, ds, e)
    requires g.ofBody(d.body) == d.digest == e.digest == g.ofBody(e.body)
    ensures ChainOf(g, k, cs, d) == ChainOf(g, k, ds, e)
    decreases d.body.revision
  {
    assert d.body == e.body;
    if d.body.revision > 1 {
      var x := ReadEnvelope(g, k, cs, d.body.predecessorCommit).value.value;
      var y := ReadEnvelope(g, k, ds, e.body.predecessorCommit).value.value;
      EqualDigestsEqualChains(g, k, cs, ds, x, y);
    }
  }

  // ---- What publishers keep ----

  function Rev(cs: Commits, id: CommitId): nat {
    if id in cs && cs[id].file.Some? then cs[id].file.value.body.revision else 0
  }

  function ConfigOf(e: Envelope, limit: nat): Config { Config(e.body.workstream, e.body.mission, limit) }

  /** A commit is an empty genesis, or continues its parent by one revision. */
  predicate CommitOk(g: Digests, cs: Commits, id: CommitId)
    requires id in cs
  {
    var c := cs[id];
    if c.file.None? then c.mirrors == map[]
    else
      && var e := c.file.value;
      && var q := e.body.predecessorCommit;
      && c.parents == [q] && q in cs && ValidEnvelope(g, ConfigOf(e, 0), e)
      && e.body.revision == Rev(cs, q) + 1
      && c.mirrors == cs[q].mirrors[(e.body.revision, e.body.packetDigest) := e]
      && (cs[q].file.Some? ==>
            && Link(e, cs[q].file.value).Ok?
            && cs[q].file.value.body.workstream == e.body.workstream && cs[q].file.value.body.mission == e.body.mission)
  }

  ghost predicate RepoOk(g: Digests, r: Repo) {
    && r.head in r.commits && (forall id :: id in r.sent && id in r.commits ==> r.commits[id].file.Some?)
    && forall id {:trigger CommitOk(g, r.commits, id)} :: id in r.commits ==> CommitOk(g, r.commits, id)
  }

  /** `a` is `b`, or lies behind it. */
  predicate Behind(cs: Commits, a: CommitId, b: CommitId)
    decreases Rev(cs, b)
  {
    a == b || (Rev(cs, b) >= 1 && Rev(cs, cs[b].file.value.body.predecessorCommit) < Rev(cs, b)
               && Behind(cs, a, cs[b].file.value.body.predecessorCommit))
  }

  predicate Extends(cs: Commits, ds: Commits) { forall id :: id in cs ==> id in ds && ds[id] == cs[id] }

  lemma {:induction false} BehindStays(g: Digests, cs: Commits, ds: Commits, a: CommitId, b: CommitId)
    requires Extends(cs, ds) && b in cs && Behind(cs, a, b) && forall id :: id in cs ==> CommitOk(g, cs, id)
    ensures Behind(ds, a, b)
    decreases Rev(cs, b)
  {
    if a != b {
      assert CommitOk(g, cs, b);
      BehindStays(g, cs, ds, a, cs[b].file.value.body.predecessorCommit);
    }
  }

  lemma {:induction false} BehindTwice(cs: Commits, a: CommitId, b: CommitId, c: CommitId)
    requires Behind(cs, a, b) && Behind(cs, b, c)
    ensures Behind(cs, a, c)
    decreases Rev(cs, c)
  {
    if b != c { BehindTwice(cs, a, b, cs[c].file.value.body.predecessorCommit); }
  }

  /** A commit that extends the repository soundly leaves all others sound. */
  lemma CommitsStayOk(g: Digests, cs: Commits, ds: Commits, id: CommitId)
    requires Extends(cs, ds) && id in cs && CommitOk(g, cs, id)
    ensures CommitOk(g, ds, id)
  { }

  lemma PublishKeeps(g: Digests, k: Config, r: Repo, p: Packet, x: Expectation, id: CommitId)
    requires RepoOk(g, r)
    ensures RepoOk(g, Publish(g, k, r, p, x, id)) && Extends(r.commits, Publish(g, k, r, p, x, id).commits)
    ensures Publish(g, k, r, p, x, id).head == r.head
  {
    var t := Publish(g, k, r, p, x, id);
    if t != r {
      assert CommitOk(g, r.commits, r.head);
      forall i | i in t.commits ensures CommitOk(g, t.commits, i) {
        if i in r.commits { CommitsStayOk(g, r.commits, t.commits, i); }
      }
    }
  }

  lemma DeliverKeeps(g: Digests, r: Repo, id: CommitId)
    requires RepoOk(g, r)
    ensures RepoOk(g, Deliver(r, id)) && Behind(r.commits, r.head, Deliver(r, id).head)
  {
    if Deliver(r, id).head != r.head { assert CommitOk(g, r.commits, id); }
  }

  /** The repository only grows, and the ref only moves forward. */
  predicate Grows(r: Repo, t: Repo) { Extends(r.commits, t.commits) && Behind(t.commits, r.head, t.head) }

  lemma StepKeeps(g: Digests, r: Repo, m: Move)
    requires RepoOk(g, r)
    ensures RepoOk(g, Step(g, r, m)) && Grows(r, Step(g, r, m))
  {
    match m {
      case PublishMove(k, p, x, id) => PublishKeeps(g, k, r, p, x, id);
      case DeliverMove(id) => DeliverKeeps(g, r, id);
    }
  }

  lemma {:induction false} RunKeeps(g: Digests, r: Repo, ms: seq<Move>)
    requires RepoOk(g, r)
    ensures RepoOk(g, After(g, r, ms)) && Grows(r, After(g, r, ms))
    decreases |ms|
  {
    if ms != [] {
      var t := Step(g, r, ms[0]);
      StepKeeps(g, r, ms[0]);
      RunKeeps(g, t, ms[1..]);
      BehindStays(g, t.commits, After(g, r, ms).commits, r.head, t.head);
      BehindTwice(After(g, r, ms).commits, r.head, t.head, After(g, r, ms).head);
    }
  }

  ghost predicate Reachable(g: Digests, r: Repo) { exists root, parents, ms :: r == After(g, Genesis(root, parents), ms) }

  ghost predicate Later(g: Digests, r: Repo, t: Repo) { exists ms :: t == After(g, r, ms) }

  lemma ReachableOk(g: Digests, r: Repo)
    requires Reachable(g, r)
    ensures RepoOk(g, r)
  {
    var root, parents, ms :| r == After(g, Genesis(root, parents), ms);
    assert CommitOk(g, Genesis(root, parents).commits, root);
    RunKeeps(g, Genesis(root, parents), ms);
  }

  // ---- Mirrors ----

  /** The mirrors of a commit are of its own and earlier revisions. */
  lemma {:induction false} MirrorsBelow(g: Digests, r: Repo, id: CommitId, key: (nat, nat))
    requires RepoOk(g, r) && id in r.commits && key in r.commits[id].mirrors
    ensures 1 <= key.0 <= Rev(r.commits, id)
    decreases Rev(r.commits, id)
  {
    assert CommitOk(g, r.commits, id);
    var e := r.commits[id].file.value;
    if key != (e.body.revision, e.body.packetDigest) { MirrorsBelow(g, r, e.body.predecessorCommit, key); }
  }

  /** Each earlier revision has its mirror, unchanged, at every later commit. */
  lemma {:induction false} MirrorStays(g: Digests, r: Repo, a: CommitId, b: CommitId)
    requires RepoOk(g, r) && b in r.commits && Behind(r.commits, a, b) && a in r.commits && r.commits[a].file.Some?
    ensures var e := r.commits[a].file.value;
            && (e.body.revision, e.body.packetDigest) in r.commits[b].mirrors
            && r.commits[b].mirrors[(e.body.revision, e.body.packetDigest)] == e
            && e.body.revision <= Rev(r.commits, b)
    decreases Rev(r.commits, b)
  {
    assert CommitOk(g, r.commits, b);
    if a != b { MirrorStays(g, r, a, r.commits[b].file.value.body.predecessorCommit); }
  }

  /** A head of revision `n` has exactly `n` mirrors. */
  lemma {:induction false} MirrorCount(g: Digests, r: Repo, id: CommitId)
    requires RepoOk(g, r) && id in r.commits
    ensures |r.commits[id].mirrors| == Rev(r.commits, id)
    decreases Rev(r.commits, id)
  {
    assert CommitOk(g, r.commits, id);
    if r.commits[id].file.Some? {
      var e := r.commits[id].file.value;
      var q := e.body.predecessorCommit;
      MirrorCount(g, r, q);
      var key := (e.body.revision, e.body.packetDigest);
      if key in r.commits[q].mirrors { MirrorsBelow(g, r, q, key); }
      assert r.commits[id].mirrors.Keys == r.commits[q].mirrors.Keys + {key};
    }
  }

  // ---- Every reachable head verifies ----

  lemma ReadsBack(g: Digests, r: Repo, k: Config, id: CommitId)
    requires RepoOk(g, r) && id in r.commits
    requires r.commits[id].file.Some? ==>
               r.commits[id].file.value.body.workstream == k.workstream && r.commits[id].file.value.body.mission == k.mission
    ensures ReadEnvelope(g, k, r.commits, id) == Ok(r.commits[id].file)
  { assert CommitOk(g, r.commits, id); }

  lemma {:induction false} ChainIsGood(g: Digests, r: Repo, k: Config, id: CommitId)
    requires RepoOk(g, r) && id in r.commits && r.commits[id].file.Some?
    requires r.commits[id].file.value.body.workstream == k.workstream && r.commits[id].file.value.body.mission == k.mission
    ensures Good(g, k, r.commits, r.commits[id].file.value)
    decreases Rev(r.commits, id)
  {
    assert CommitOk(g, r.commits, id);
    var e := r.commits[id].file.value;
    if e.body.revision > 1 {
      ReadsBack(g, r, k, e.body.predecessorCommit);
      ChainIsGood(g, r, k, e.body.predecessorCommit);
    }
  }

  lemma {:induction false} WalkFailsByLimitOnly(g: Digests, k: Config, cs: Commits, e: Envelope, depth: nat)
    requires Good(g, k, cs, e)
    ensures Walk(g, k, cs, e, depth) == if depth + e.body.revision <= k.limit then Ok(depth + e.body.revision) else HistoryLimit
    decreases e.body.revision
  {
    if depth + 1 <= k.limit && e.body.revision > 1 {
      WalkFailsByLimitOnly(g, k, cs, ReadEnvelope(g, k, cs, e.body.predecessorCommit).value.value, depth + 1);
    }
  }

  /** The mirrors of a chain: for each revision exactly one, and it is the envelope of the chain. */
  ghost predicate MirrorsOf(ms: map<(nat, nat), Envelope>, chain: seq<Envelope>) {
    && (forall j {:trigger chain[j]} :: 0 <= j < |chain| ==> chain[j].body.revision == |chain| - j && Mirrored(ms, chain[j]))
    && (forall key {:trigger key in ms} :: key in ms ==> MirrorOf(ms, key, chain))
  }

  predicate MirrorOf(ms: map<(nat, nat), Envelope>, key: (nat, nat), chain: seq<Envelope>)
    requires key in ms
  {
    1 <= key.0 <= |chain| && ms[key] == chain[|chain| - key.0] && key.1 == ms[key].body.packetDigest
  }

  predicate Mirrored(ms: map<(nat, nat), Envelope>, e: Envelope) {
    (e.body.revision, e.body.packetDigest) in ms && ms[(e.body.revision, e.body.packetDigest)] == e
  }

  lemma {:induction false} MirrorsAreChain(g: Digests, r: Repo, k: Config, id: CommitId)
    requires RepoOk(g, r) && id in r.commits && r.commits[id].file.Some? && Good(g, k, r.commits, r.commits[id].file.value)
    requires r.commits[id].file.value.body.workstream == k.workstream && r.commits[id].file.value.body.mission == k.mission
    ensures var chain := ChainOf(g, k, r.commits, r.commits[id].file.value);
            |chain| == Rev(r.commits, id) && chain[0] == r.commits[id].file.value && MirrorsOf(r.commits[id].mirrors, chain)
    decreases Rev(r.commits, id)
  {
    assert CommitOk(g, r.commits, id);
    var e := r.commits[id].file.value;
    var q := e.body.predecessorCommit;
    if e.body.revision > 1 {
      ReadsBack(g, r, k, q);
      MirrorsAreChain(g, r, k, q);
      OneMoreMirror(r.commits[q].mirrors, ChainOf(g, k, r.commits, r.commits[q].file.value), e);
    } else {
      assert CommitOk(g, r.commits, q);
      OneMoreMirror(r.commits[q].mirrors, [], e);
    }
  }

  lemma OneMoreMirror(ms: map<(nat, nat), Envelope>, chain: seq<Envelope>, e: Envelope)
    requires MirrorsOf(ms, chain) && e.body.revision == |chain| + 1
    ensures MirrorsOf(ms[(e.body.revision, e.body.packetDigest) := e], [e] + chain)
  {
    var more := [e] + chain;
    forall j | 0 <= j < |more|
      ensures more[j].body.revision == |more| - j && Mirrored(ms[(e.body.revision, e.body.packetDigest) := e], more[j])
    { if j > 0 { assert more[j] == chain[j - 1] && Mirrored(ms, chain[j - 1]); } }
  }

  /** Within the depth limit the head verifies with as many revisions as its number, which its mirrors match. */
  ghost predicate HeadVerifies(g: Digests, r: Repo, k: Config)
    requires r.head in r.commits && r.commits[r.head].file.Some?
  {
    var e := r.commits[r.head].file.value;
    && VerifyHistory(g, k, r.commits, r.head) == (if e.body.revision <= k.limit then Ok(e.body.revision) else HistoryLimit)
    && Good(g, k, r.commits, e)
    && |ChainOf(g, k, r.commits, e)| == e.body.revision == |r.commits[r.head].mirrors|
    && MirrorsOf(r.commits[r.head].mirrors, ChainOf(g, k, r.commits, e))
  }

  lemma SoundHeadVerifies(g: Digests, r: Repo, k: Config)
    requires RepoOk(g, r) && r.commits[r.head].file.Some?
    requires r.commits[r.head].file.value.body.workstream == k.workstream && r.commits[r.head].file.value.body.mission == k.mission
    ensures HeadVerifies(g, r, k)
  {
    SoundHeadWalks(g, r, k);
    MirrorsAreChain(g, r, k, r.head);
    MirrorCount(g, r, r.head);
  }

  lemma SoundHeadWalks(g: Digests, r: Repo, k: Config)
    requires RepoOk(g, r) && r.commits[r.head].file.Some?
    requires r.commits[r.head].file.value.body.workstream == k.workstream && r.commits[r.head].file.value.body.mission == k.mission
    ensures var e := r.commits[r.head].file.value;
            && Good(g, k, r.commits, e)
            && VerifyHistory(g, k, r.commits, r.head) == (if e.body.revision <= k.limit then Ok(e.body.revision) else HistoryLimit)
  {
    ReadsBack(g, r, k, r.head);
    ChainIsGood(g, r, k, r.head);
    WalkFailsByLimitOnly(g, k, r.commits, r.commits[r.head].file.value, 0);
  }

  /** In any interleaving of publishers, verification accepts the head exactly within the depth limit, and then verifies
      as many revisions as the head's revision number; the revisions are 1..n without gaps, and each has exactly one
      mirror at the head, the envelope of the verified chain. */
  lemma ReachableVerifies(g: Digests, r: Repo, limit: nat)
    requires Reachable(g, r) && r.head in r.commits && r.commits[r.head].file.Some?
    ensures HeadVerifies(g, r, ConfigOf(r.commits[r.head].file.value, limit))
  {
    ReachableOk(g, r);
    SoundHeadVerifies(g, r, ConfigOf(r.commits[r.head].file.value, limit));
  }

  /** What was once the head is never lost: its envelope is the mirror of its revision at every later head. */
  lemma PublishedForEver(g: Digests, r: Repo, t: Repo)
    requires Reachable(g, r) && Later(g, r, t) && r.head in r.commits && r.commits[r.head].file.Some?
    ensures t.head in t.commits
    ensures var e := r.commits[r.head].file.value;
            && (e.body.revision, e.body.packetDigest) in t.commits[t.head].mirrors
            && t.commits[t.head].mirrors[(e.body.revision, e.body.packetDigest)] == e
            && e.body.revision <= Rev(t.commits, t.head)
  {
    ReachableOk(g, r);
    var ms :| t == After(g, r, ms);
    RunKeeps(g, r, ms);
    MirrorStays(g, t, r.head, t.head);
  }

  /** A publication whose update arrives while the ref is where the publisher found it reconstructs to the packet that
      was written, so that the check after the write passes. */
  lemma PublishReconstructs(g: Digests, r: Repo, k: Config, p: Packet, x: Expectation, id: CommitId)
    requires Reachable(g, r) && PlanPublish(g, k, r, p, x).Ok? && PlanPublish(g, k, r, p, x).value.BuildOn?
    requires id !in r.commits && x.revision + 1 <= k.limit
    ensures var t := Deliver(Publish(g, k, r, p, x, id), id);
            && t.head == id
            && var out := Reconstruct(g, k, t.commits, id, id);
            && out.Ok? && out.value.0.body.packet == p && out.value.1 == x.revision + 1
  {
    ReachableOk(g, r);
    var s := Publish(g, k, r, p, x, id);
    var t := Deliver(s, id);
    PublishKeeps(g, k, r, p, x, id);
    DeliverKeeps(g, s, id);
    ReadsBack(g, t, k, id);
    ChainIsGood(g, t, k, id);
    WalkFailsByLimitOnly(g, k, t.commits, t.commits[id].file.value, 0);
  }

  // ---- The loop of verifyHistory ----

  method VerifyChain(g: Digests, k: Config, cs: Commits, head: CommitId) returns (r: Result<nat>)
    ensures r == VerifyHistory(g, k, cs, head)
  {
    var read := ReadEnvelope(g, k, cs, head);
    if !read.Ok? { return Failed(read); }
    if read.value.None? { return HeadMissing; }
    var current := read.value.value;
    var depth: nat := 0;
    while true
      invariant VerifyHistory(g, k, cs, head) == Walk(g, k, cs, current, depth)
      decreases k.limit - depth
    {
      depth := depth + 1;
      if depth > k.limit { return HistoryLimit; }
      var parent := current.body.predecessorCommit;
      if current.body.revision == 1 {
        if parent in cs && cs[parent].file.Some? { return GenesisInvalid; }
        return Ok(depth);
      }
      var previous := ReadEnvelope(g, k, cs, parent);
      if !previous.Ok? { return Failed(previous); }
      if previous.value.None? { return HistoryMissing; }
      if previous.value.value.body.revision != current.body.revision - 1 { return HistoryGap; }
      if Some(previous.value.value.body.packetDigest) != current.body.predecessorPacket { return PacketFork; }
      if Some(previous.value.value.digest) != current.body.predecessorPublication { return DigestFork; }
      current := previous.value.value;
    }
  }
}
