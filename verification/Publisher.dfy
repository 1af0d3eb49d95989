/** `publish` as it runs against a repository that other publishers and the network change meanwhile. */
module Publisher {
  import opened Wrappers
  import opened PublicationSpec
  import opened PublicationSafety
  import opened PublicationEffects

  /** What the request to move the ref answers. */
  datatype Answer = Done | Refused | Ambiguous

  datatype Published = Already(envelope: Envelope) | Written(envelope: Envelope, revisions: nat) | NotPublished

  lemma {:induction false} AfterMore(g: Digests, r: Repo, ms: seq<Move>, more: seq<Move>)
    ensures After(g, r, ms + more) == After(g, After(g, r, ms), more)
    decreases |ms|
  {
    if ms == [] { assert ms + more == more; }
    else {
      assert (ms + more)[1..] == ms[1..] + more;
      AfterMore(g, Step(g, r, ms[0]), ms[1..], more);
    }
  }

  class Remote {
    var commits: Commits
    var head: CommitId
    var sent: set<CommitId>

    function Value(): Repo reads this { Repo(commits, head, sent) }

    constructor (root: CommitId, parents: seq<CommitId>)
      ensures Value() == Genesis(root, parents)
    { commits, head, sent := map[root := Commit(parents, None, map[])], root, {}; }

    /** Others act. */
    method Elapse(g: Digests, ms: seq<Move>)
      modifies this
      ensures Value() == After(g, old(Value()), ms)
    {
      var i := 0;
      while i < |ms|
        invariant i <= |ms| && After(g, Value(), ms[i..]) == After(g, old(Value()), ms)
      {
        assert ms[i..][1..] == ms[i + 1..];
        var t := Step(g, Value(), ms[i]);
        commits, head, sent := t.commits, t.head, t.sent;
        i := i + 1;
      }
    }

    /** Reads the ref, checks the expectation, and sends an update for a new commit. */
    method Propose(g: Digests, k: Config, p: Packet, x: Expectation, id: CommitId) returns (plan: Result<Plan>)
      requires RepoOk(g, Value()) && id !in commits
      modifies this
      ensures Value() == Publish(g, k, old(Value()), p, x, id) && plan == PlanPublish(g, k, old(Value()), p, x)
      ensures plan.Ok? <==> OfChain(k, p) && AsExpected(g, k, old(Value()), x)
      ensures plan.Ok? ==> (plan.value.Idempotent? <==> AtHead(old(Value()), p))
      ensures plan.Ok? && plan.value.Idempotent? ==> old(commits[head]).file == Some(plan.value.envelope)
      ensures plan.Ok? && plan.value.BuildOn? ==>
                id in commits && Appended(g, old(Value()), p, x, commits[id]) && commits == old(commits)[id := commits[id]]
    {
      PlansExactly(g, k, Value(), p, x);
      PublishMeans(g, k, Value(), p, x, id);
      plan := PlanPublish(g, k, Value(), p, x);
      if plan.Ok? && plan.value.BuildOn? {
        var e := MakeEnvelope(g, p, x.revision + 1, head, plan.value.existing);
        commits := commits[id := PublicationCommit(head, commits[head], e)];
        sent := sent + {id};
      }
    }

    /** A publication that is reported as written is the chain's envelope for its revision from then on, whatever the
        others and the network did meanwhile; and it is reported exactly if the ref is found at the new commit and stays there
        while it is verified. */
    method PublishPacket(
      g: Digests, k: Config, p: Packet, x: Expectation, id: CommitId, before: seq<Move>, during: seq<Move>, answer: Answer,
      verifying: seq<Move>) returns (r: Published, ghost script: seq<Move>)
      requires RepoOk(g, Value()) && id !in After(g, Value(), before).commits
      modifies this
      ensures RepoOk(g, Value()) && Value() == After(g, old(Value()), script)
      ensures var found := After(g, old(Value()), before);
              && found.head in found.commits
              && (r.Already? <==> OfChain(k, p) && AsExpected(g, k, found, x) && AtHead(found, p))
              && (r.Already? ==> found.commits[found.head].file == Some(r.envelope) && r.envelope.body.revision == x.revision)
      ensures var found := After(g, old(Value()), before);
              var arrived := After(g, Publish(g, k, found, p, x, id), during);
              r.Written? <==> && OfChain(k, p) && AsExpected(g, k, found, x) && !AtHead(found, p) && answer != Refused
                              && arrived.head == id == After(g, arrived, verifying).head && x.revision + 1 <= k.limit
      ensures r.Written? ==>
                && r.envelope.body.packet == p && r.envelope.body.revision == x.revision + 1 == r.revisions
                && (r.revisions, r.envelope.body.packetDigest) in commits[head].mirrors
                && commits[head].mirrors[(r.revisions, r.envelope.body.packetDigest)] == r.envelope
    {
      ghost var start := Value();
      script := before;
      RunKeeps(g, start, before);
      Elapse(g, before);
      ghost var found := Value();
      var plan := Propose(g, k, p, x, id);
      Play(g, start, script, PublishMove(k, p, x, id));
      script := script + [PublishMove(k, p, x, id)];
      if !plan.Ok? { return NotPublished, script; }
      if plan.value.Idempotent? { return Already(plan.value.envelope), script; }
      ghost var proposed := Value();
      RunKeeps(g, proposed, during);
      Elapse(g, during);
      AfterMore(g, start, script, during);
      script := script + during;
      if answer == Refused || (answer == Ambiguous && head != id) || (answer == Done && !Behind(commits, id, head)) {
        return NotPublished, script;
      }
      var seen := head;
      ghost var rest;
      r, rest := Verify(g, k, p, x, id, seen, verifying);
      AfterMore(g, start, script, rest);
      script := script + rest;
    }

    /** The reconstruction after the write. */
    method Verify(g: Digests, k: Config, p: Packet, x: Expectation, id: CommitId, seen: CommitId, verifying: seq<Move>)
      returns (r: Published, ghost script: seq<Move>)
      requires RepoOk(g, Value()) && id in commits && commits[id].file.Some? && seen == head
      requires var b := commits[id].file.value.body;
               b.revision == x.revision + 1 && b.packet == p && b.workstream == k.workstream && b.mission == k.mission
      modifies this
      ensures RepoOk(g, Value()) && Value() == After(g, old(Value()), verifying) && script == verifying && !r.Already?
      ensures r.Written? <==> seen == id == head && x.revision + 1 <= k.limit
      ensures r.Written? ==>
                && r.envelope.body.packet == p && r.envelope.body.revision == x.revision + 1 == r.revisions
                && (r.revisions, r.envelope.body.packetDigest) in commits[head].mirrors
                && commits[head].mirrors[(r.revisions, r.envelope.body.packetDigest)] == r.envelope
    {
      ghost var was := Value();
      RunKeeps(g, was, verifying);
      Elapse(g, verifying);
      script := verifying;
      var out := Reconstruct(g, k, commits, seen, head);
      assert id in commits && commits[id] == was.commits[id];
      if seen == id { ReconstructsWritten(g, k, Value(), id, head); }
      if !out.Ok? || seen != id || out.value.0.body.packet != p { return NotPublished, script; }
      r := Written(out.value.0, out.value.1);
      MirrorStays(g, Value(), id, head);
    }

    lemma Play(g: Digests, r: Repo, ms: seq<Move>, m: Move)
      requires RepoOk(g, r)
      ensures After(g, r, ms + [m]) == Step(g, After(g, r, ms), m) && RepoOk(g, After(g, r, ms + [m]))
    {
      AfterMore(g, r, ms, [m]);
      assert [m][1..] == [];
      var t := After(g, r, ms);
      assert After(g, t, [m]) == Step(g, t, m) by { assert After(g, Step(g, t, m), []) == Step(g, t, m); }
      RunKeeps(g, r, ms + [m]);
    }
  }
}
