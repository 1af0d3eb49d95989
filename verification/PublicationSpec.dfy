/** The active-work publication chain (control-gateway/src/github-active-work-publication.js). A packet is an opaque
    valid value of one workstream and mission; digests are functions that the theorems assume to be collision-free. */
module PublicationSpec {
  import opened Wrappers

  type CommitId = nat

  datatype Packet = Packet(workstream: nat, mission: nat, content: nat)

  /** An envelope without its own digest. */
  datatype Body = Body(
    workstream: nat, mission: nat, revision: nat, predecessorCommit: CommitId, predecessorPacket: Option<nat>,
    predecessorPublication: Option<nat>, packetDigest: nat, packet: Packet)

  datatype Envelope = Envelope(body: Body, digest: nat)

  datatype Digests = Digests(ofPacket: Packet -> nat, ofBody: Body -> nat)

  /** A commit of the publication ref: the head file, and the immutable mirrors by revision and packet digest. */
  datatype Commit = Commit(parents: seq<CommitId>, file: Option<Envelope>, mirrors: map<(nat, nat), Envelope>)

  type Commits = map<CommitId, Commit>

  /** The settings of a publisher. */
  datatype Config = Config(workstream: nat, mission: nat, limit: nat)

  /** The results of the checks; an error names the check that failed. */
  datatype Result<+T> =
    | Ok(value: T)
    | CommitInvalid | EnvelopeInvalid | ParentMismatch | MirrorMissing | MirrorMismatch
    | HeadMissing | HistoryLimit | GenesisInvalid | HistoryMissing | HistoryGap | PacketFork | DigestFork
    | HeadConflict | HeadMoved

  function Failed<T, U>(r: Result<T>): Result<U>
    requires !r.Ok?
  {
    match r
    case CommitInvalid => CommitInvalid case EnvelopeInvalid => EnvelopeInvalid case ParentMismatch => ParentMismatch
    case MirrorMissing => MirrorMissing case MirrorMismatch => MirrorMismatch case HeadMissing => HeadMissing
    case HistoryLimit => HistoryLimit case GenesisInvalid => GenesisInvalid case HistoryMissing => HistoryMissing
    case HistoryGap => HistoryGap case PacketFork => PacketFork case DigestFork => DigestFork
    case HeadConflict => HeadConflict case HeadMoved => HeadMoved
  }

  // ---- Envelopes ----

  /** `validatePublicationEnvelope` */
  predicate ValidEnvelope(g: Digests, k: Config, e: Envelope) {
    && e.body.workstream == k.workstream && e.body.mission == k.mission && e.body.revision >= 1
    && e.body.packet.workstream == e.body.workstream && e.body.packet.mission == e.body.mission
    && g.ofPacket(e.body.packet) == e.body.packetDigest && g.ofBody(e.body) == e.digest
    && (if e.body.revision == 1 then e.body.predecessorPacket.None? && e.body.predecessorPublication.None?
        else e.body.predecessorPacket.Some? && e.body.predecessorPublication.Some?)
  }

  /** `makeEnvelope`, on the envelope that the publisher found. */
  function MakeEnvelope(g: Digests, p: Packet, revision: nat, commit: CommitId, existing: Option<Envelope>): Envelope {
    var body := Body(p.workstream, p.mission, revision, commit,
                     if existing.Some? then Some(existing.value.body.packetDigest) else None,
                     if existing.Some? then Some(existing.value.digest) else None,
                     g.ofPacket(p), p);
    Envelope(body, g.ofBody(body))
  }

  /** `readEnvelopeAtCommit` */
  function ReadEnvelope(g: Digests, k: Config, cs: Commits, id: CommitId): Result<Option<Envelope>> {
    if id !in cs then CommitInvalid
    else if cs[id].file.None? then Ok(None)
    else
      var e := cs[id].file.value;
      if !ValidEnvelope(g, k, e) then EnvelopeInvalid
      else if cs[id].parents != [e.body.predecessorCommit] then ParentMismatch
      else if (e.body.revision, e.body.packetDigest) !in cs[id].mirrors then MirrorMissing
      else if cs[id].mirrors[(e.body.revision, e.body.packetDigest)] != e then MirrorMismatch
      else Ok(Some(e))
  }

  // ---- verifyHistory ----

  /** The check of one link of the chain. */
  function Link(e: Envelope, previous: Envelope): Result<Envelope> {
    if previous.body.revision != e.body.revision - 1 then HistoryGap
    else if Some(previous.body.packetDigest) != e.body.predecessorPacket then PacketFork
    else if Some(previous.digest) != e.body.predecessorPublication then DigestFork
    else Ok(previous)
  }

  /** The walk from an envelope that was read, with `depth` revisions verified before it. */
  function Walk(g: Digests, k: Config, cs: Commits, e: Envelope, depth: nat): Result<nat>
    decreases k.limit - depth
  {
    if depth + 1 > k.limit then HistoryLimit
    else
      var parent := e.body.predecessorCommit;
      if e.body.revision == 1 then
        if parent in cs && cs[parent].file.Some? then GenesisInvalid else Ok(depth + 1)
      else
        var read := ReadEnvelope(g, k, cs, parent);
        if !read.Ok? then Failed(read)
        else if read.value.None? then HistoryMissing
        else
          var link := Link(e, read.value.value);
          if !link.Ok? then Failed(link) else Walk(g, k, cs, link.value, depth + 1)
  }

  function VerifyHistory(g: Digests, k: Config, cs: Commits, head: CommitId): Result<nat> {
    var read := ReadEnvelope(g, k, cs, head);
    if !read.Ok? then Failed(read)
    else if read.value.None? then HeadMissing
    else Walk(g, k, cs, read.value.value, 0)
  }

  /** `reconstruct`, with the ref as it was before and after the verification. */
  function Reconstruct(g: Digests, k: Config, cs: Commits, before: CommitId, after: CommitId): Result<(Envelope, nat)> {
    var read := ReadEnvelope(g, k, cs, before);
    if !read.Ok? then Failed(read)
    else if read.value.None? then HeadMissing
    else
      var history := VerifyHistory(g, k, cs, before);
      if !history.Ok? then Failed(history)
      else if after != before then HeadMoved
      else Ok((read.value.value, history.value))
  }

  // ---- publish ----

  /** The repository: commits, the ref, and the updates that were sent and may arrive at any later time. */
  datatype Repo = Repo(commits: Commits, head: CommitId, sent: set<CommitId>)

  datatype Expectation = Expectation(head: CommitId, revision: nat, packetDigest: Option<nat>)

  /** What a publisher finds at the ref: an error, an idempotent answer, or the revision to build on. */
  datatype Plan = Idempotent(envelope: Envelope) | BuildOn(existing: Option<Envelope>)

  function PlanPublish(g: Digests, k: Config, r: Repo, p: Packet, x: Expectation): Result<Plan> {
    if p.workstream != k.workstream || p.mission != k.mission then EnvelopeInvalid
    else if r.head != x.head then HeadConflict
    else
      var read := ReadEnvelope(g, k, r.commits, r.head);
      if !read.Ok? then Failed(read)
      else
        match read.value
        case None => if x.revision != 0 || x.packetDigest.Some? then HeadConflict else Ok(BuildOn(None))
        case Some(e) =>
          if e.body.revision != x.revision || Some(e.body.packetDigest) != x.packetDigest then HeadConflict
          else if e.body.packet == p then Ok(Idempotent(e)) else Ok(BuildOn(Some(e)))
  }

  /** The commit of a publication: the head file and its mirror on top of the parent's files. */
  function PublicationCommit(parent: CommitId, c: Commit, e: Envelope): Commit {
    Commit([parent], Some(e), c.mirrors[(e.body.revision, e.body.packetDigest) := e])
  }

  /** `id` is the name that Git gives to the new commit. */
  function Publish(g: Digests, k: Config, r: Repo, p: Packet, x: Expectation, id: CommitId): Repo {
    var plan := PlanPublish(g, k, r, p, x);
    if !plan.Ok? || plan.value.Idempotent? || id in r.commits || r.head !in r.commits then r
    else
      var e := MakeEnvelope(g, p, x.revision + 1, r.head, plan.value.existing);
      r.(commits := r.commits[id := PublicationCommit(r.head, r.commits[r.head], e)], sent := r.sent + {id})
  }

  /** A fast-forward moves the ref to a commit whose parent it is. An update that arrives again changes nothing. */
  function Deliver(r: Repo, id: CommitId): Repo {
    if id in r.sent && id in r.commits && r.commits[id].parents == [r.head] then r.(head := id) else r
  }

  datatype Move = PublishMove(config: Config, packet: Packet, expectation: Expectation, id: CommitId) | DeliverMove(id: CommitId)

  function Step(g: Digests, r: Repo, m: Move): Repo {
    match m
    case PublishMove(k, p, x, id) => Publish(g, k, r, p, x, id)
    case DeliverMove(id) => Deliver(r, id)
  }

  function After(g: Digests, r: Repo, ms: seq<Move>): Repo
    decreases |ms|
  {
    if ms == [] then r else After(g, Step(g, r, ms[0]), ms[1..])
  }

  /** A ref at a commit without publications. */
  function Genesis(root: CommitId, parents: seq<CommitId>): Repo { Repo(map[root := Commit(parents, None, map[])], root, {}) }
}
