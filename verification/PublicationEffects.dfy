/** What the operations on the publication chain do, told of commits and envelopes: which chains verify, when a packet is
    published and what its commit holds, and when a reconstruction succeeds. */
module PublicationEffects {
  import opened Wrappers
  import opened PublicationSpec
  import opened PublicationSafety

  // ---- readEnvelopeAtCommit ----

  /** The envelope is of this workstream and mission, carries the right digests, and names what it follows if anything. */
  predicate Genuine(g: Digests, k: Config, e: Envelope) {
    && e.body.workstream == k.workstream == e.body.packet.workstream && e.body.mission == k.mission == e.body.packet.mission
    && e.body.packetDigest == g.ofPacket(e.body.packet) && e.digest == g.ofBody(e.body) && e.body.revision >= 1
    && (e.body.revision == 1 ==> e.body.predecessorPacket.None? && e.body.predecessorPublication.None?)
    && (e.body.revision > 1 ==> e.body.predecessorPacket.Some? && e.body.predecessorPublication.Some?)
  }

  /** The commit publishes the envelope: in its head file and, unchanged, in the mirror of its revision, on top of the one
      parent that the envelope names. */
  predicate Publishes(g: Digests, k: Config, cs: Commits, id: CommitId, e: Envelope) {
    && id in cs && cs[id].file == Some(e) && Genuine(g, k, e) && cs[id].parents == [e.body.predecessorCommit]
    && Mirrored(cs[id].mirrors, e)
  }

  lemma ReadsPublished(g: Digests, k: Config, cs: Commits, id: CommitId, e: Envelope)
    ensures ReadEnvelope(g, k, cs, id) == Ok(Some(e)) <==> Publishes(g, k, cs, id, e)
  { }

  lemma ReadsNothing(g: Digests, k: Config, cs: Commits, id: CommitId)
    ensures ReadEnvelope(g, k, cs, id) == Ok(None) <==> id in cs && cs[id].file.None?
  { }

  // ---- verifyHistory ----

  /** The second envelope is the one before the first. */
  predicate Follows(e: Envelope, d: Envelope) {
    && e.body.revision == d.body.revision + 1 && e.body.predecessorPacket == Some(d.body.packetDigest)
    && e.body.predecessorPublication == Some(d.digest)
  }

  /** Envelopes, the newest first, each published by the commit that the one after it names, back to the first revision,
      behind which nothing is published. */
  predicate SoundChain(g: Digests, k: Config, cs: Commits, id: CommitId, chain: seq<Envelope>)
    decreases |chain|
  {
    && chain != [] && Publishes(g, k, cs, id, chain[0])
    && var before := chain[0].body.predecessorCommit;
    if |chain| == 1 then chain[0].body.revision == 1 && (before in cs ==> cs[before].file.None?)
    else Follows(chain[0], chain[1]) && SoundChain(g, k, cs, before, chain[1..])
  }

  lemma {:induction false} ChainRevision(g: Digests, k: Config, cs: Commits, id: CommitId, chain: seq<Envelope>)
    requires SoundChain(g, k, cs, id, chain)
    ensures chain[0].body.revision == |chain| && Good(g, k, cs, chain[0])
    decreases |chain|
  {
    var before := chain[0].body.predecessorCommit;
    if |chain| > 1 {
      ChainRevision(g, k, cs, before, chain[1..]);
      ReadsPublished(g, k, cs, before, chain[1]);
    }
  }

  lemma {:induction false} GoodChain(g: Digests, k: Config, cs: Commits, id: CommitId, e: Envelope)
    requires Publishes(g, k, cs, id, e) && Good(g, k, cs, e)
    ensures var chain := ChainOf(g, k, cs, e); SoundChain(g, k, cs, id, chain) && |chain| == e.body.revision && chain[0] == e
    decreases e.body.revision
  {
    if e.body.revision > 1 {
      var before := e.body.predecessorCommit;
      var d := ReadEnvelope(g, k, cs, before).value.value;
      ReadsPublished(g, k, cs, before, d);
      GoodChain(g, k, cs, before, d);
      assert ChainOf(g, k, cs, e)[1..] == ChainOf(g, k, cs, d);
    }
  }

  /** Verification accepts `n` revisions exactly if there is a sound chain of `n` envelopes behind the head, within the
      limit. */
  lemma VerifiesExactly(g: Digests, k: Config, cs: Commits, head: CommitId, n: nat)
    ensures VerifyHistory(g, k, cs, head) == Ok(n) <==>
              n <= k.limit && exists chain :: SoundChain(g, k, cs, head, chain) && |chain| == n
  {
    VerificationIsExact(g, k, cs, head, n);
    if VerifyHistory(g, k, cs, head) == Ok(n) {
      var e := ReadEnvelope(g, k, cs, head).value.value;
      ReadsPublished(g, k, cs, head, e);
      GoodChain(g, k, cs, head, e);
    }
    forall chain | SoundChain(g, k, cs, head, chain) && |chain| == n && n <= k.limit
      ensures VerifyHistory(g, k, cs, head) == Ok(n)
    {
      ReadsPublished(g, k, cs, head, chain[0]);
      ChainRevision(g, k, cs, head, chain);
    }
  }

  // ---- reconstruct ----

  /** A reconstruction answers the envelope at the head and the length of its chain, and only if the ref did not move
      meanwhile. */
  lemma ReconstructsExactly(g: Digests, k: Config, cs: Commits, before: CommitId, after: CommitId, e: Envelope, n: nat)
    ensures Reconstruct(g, k, cs, before, after) == Ok((e, n)) <==>
              && after == before && n <= k.limit
              && exists chain :: SoundChain(g, k, cs, before, chain) && |chain| == n && chain[0] == e
  {
    VerifiesExactly(g, k, cs, before, n);
    if Reconstruct(g, k, cs, before, after) == Ok((e, n)) { ReadsPublished(g, k, cs, before, e); }
    forall chain | SoundChain(g, k, cs, before, chain) && |chain| == n && chain[0] == e && after == before && n <= k.limit
      ensures Reconstruct(g, k, cs, before, after) == Ok((e, n))
    {
      ReadsPublished(g, k, cs, before, e);
    }
  }

  /** In a repository that publishers wrote, only the limit and a moved ref can make a reconstruction fail. */
  lemma ReconstructsWritten(g: Digests, k: Config, r: Repo, id: CommitId, after: CommitId)
    requires RepoOk(g, r) && id in r.commits && r.commits[id].file.Some?
    requires r.commits[id].file.value.body.workstream == k.workstream && r.commits[id].file.value.body.mission == k.mission
    ensures var e, out := r.commits[id].file.value, Reconstruct(g, k, r.commits, id, after);
            && (out.Ok? <==> after == id && e.body.revision <= k.limit)
            && (out.Ok? ==> out.value == (e, e.body.revision))
  {
    ReadsBack(g, r, k, id);
    ChainIsGood(g, r, k, id);
    WalkFailsByLimitOnly(g, k, r.commits, r.commits[id].file.value, 0);
  }

  // ---- publish ----

  /** The ref is where the publisher expects it, with the revision and packet that it expects, or empty. */
  predicate AsExpected(g: Digests, k: Config, r: Repo, x: Expectation) {
    && r.head == x.head && r.head in r.commits
    && match r.commits[r.head].file
       case None => x.revision == 0 && x.packetDigest.None?
       case Some(e) =>
         Publishes(g, k, r.commits, r.head, e) && e.body.revision == x.revision && x.packetDigest == Some(e.body.packetDigest)
  }

  predicate OfChain(k: Config, p: Packet) { p.workstream == k.workstream && p.mission == k.mission }

  /** The packet is the one at the head already. */
  predicate AtHead(r: Repo, p: Packet)
    requires r.head in r.commits
  {
    r.commits[r.head].file.Some? && r.commits[r.head].file.value.body.packet == p
  }

  /** A publication is answered exactly for a packet of the chain on a ref that is as expected; a packet that is at the
      head already is not published again. */
  lemma PlansExactly(g: Digests, k: Config, r: Repo, p: Packet, x: Expectation)
    requires r.head in r.commits
    ensures var plan := PlanPublish(g, k, r, p, x);
            && (plan.Ok? <==> OfChain(k, p) && AsExpected(g, k, r, x))
            && (plan.Ok? ==> (plan.value.Idempotent? <==> AtHead(r, p)))
            && (plan.Ok? && plan.value.Idempotent? ==> r.commits[r.head].file == Some(plan.value.envelope))
            && (plan.Ok? && plan.value.BuildOn? ==> r.commits[r.head].file == plan.value.existing)
  {
    ReadsNothing(g, k, r.commits, r.head);
    if r.commits[r.head].file.Some? { ReadsPublished(g, k, r.commits, r.head, r.commits[r.head].file.value); }
    match ReadEnvelope(g, k, r.commits, r.head) {
      case Ok(Some(e)) => ReadsPublished(g, k, r.commits, r.head, e);
      case _ =>
    }
  }

  /** The new commit: the next envelope on top of the head, with all mirrors of the head and its own. */
  predicate Appended(g: Digests, r: Repo, p: Packet, x: Expectation, d: Commit)
    requires r.head in r.commits
  {
    && d.parents == [x.head] && d.file.Some?
    && var e := d.file.value;
    && e.body.packet == p && e.body.workstream == p.workstream && e.body.mission == p.mission && e.body.revision == x.revision + 1
    && e.body.predecessorCommit == x.head && e.body.predecessorPacket == x.packetDigest && e.body.packetDigest == g.ofPacket(p)
    && e.digest == g.ofBody(e.body)
    && (match r.commits[r.head].file
        case None => e.body.predecessorPublication.None?
        case Some(f) => e.body.predecessorPublication == Some(f.digest))
    && d.mirrors == r.commits[r.head].mirrors[(x.revision + 1, g.ofPacket(p)) := e]
  }

  /** A new packet of the chain on a ref that is as expected is added as one commit, and its update sent; otherwise
      nothing changes. */
  lemma PublishMeans(g: Digests, k: Config, r: Repo, p: Packet, x: Expectation, id: CommitId)
    requires r.head in r.commits && id !in r.commits
    ensures var t := Publish(g, k, r, p, x, id);
            if OfChain(k, p) && AsExpected(g, k, r, x) && !AtHead(r, p) then
              && id in t.commits && Appended(g, r, p, x, t.commits[id])
              && t == Repo(r.commits[id := t.commits[id]], r.head, r.sent + {id})
            else t == r
  { PlansExactly(g, k, r, p, x); }
}
