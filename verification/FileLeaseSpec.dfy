/** The system-file lease protocol (control-gateway/src/github-system-file-lease.js) over a Git ref that only moves
    forward. Commits are numbered in the order of their creation. A digest is modelled by the value that it is taken
    over, so that equal digests mean equal values. */
module FileLeaseSpec {
  import opened Wrappers

  type Path = nat
  type CommitId = nat

  datatype Holder = Holder(workstream: nat, operation: nat, mutation: nat)

  /** A lease record; `prior` stands for the digest of the record before it. */
  datatype Record = Record(
    path: Path, revision: nat, epoch: nat, held: bool, holder: Holder, target: nat, predecessor: nat, fence: nat,
    acquired: int, expires: int, result: Option<nat>, prior: Option<Record>)

  /** The immutable event of a release, with the records before and after it. */
  datatype Event = Event(
    path: Path, holder: Holder, target: nat, predecessor: nat, result: nat, revision: nat, epoch: nat, fence: nat,
    acquired: int, expires: int, releasedAt: int, commit: CommitId, acquisition: Record, release: Record)

  datatype Lease = Lease(path: Path, revision: nat, epoch: nat, fence: nat, digest: Record, expires: int)

  datatype Receipt = Receipt(
    commit: CommitId, target: nat, predecessor: nat, holder: Holder, leases: seq<Lease>, replay: bool)

  /** The arguments of `acquire`, and the settings of the coordinator that runs it. */
  datatype Request = Request(
    paths: seq<Path>, holder: Holder, target: nat, predecessor: nat, now: int, ttl: int, attempts: nat)

  datatype Cause = Initial | Acquires(call: nat, req: Request) | Releases(receipt: Receipt, result: nat)

  datatype Commit = Commit(
    parent: Option<CommitId>, records: map<Path, Record>, events: map<(nat, Path), Event>, cause: Cause)

  /** `normalizePaths` */
  predicate Normal(paths: seq<Path>) { paths != [] && forall i, j :: 0 <= i < j < |paths| ==> paths[i] < paths[j] }

  function Find(c: Commit, p: Path): Option<Record> { if p in c.records then Some(c.records[p]) else None }

  // ---- Records and events ----

  function HeldRecord(previous: Option<Record>, p: Path, q: Request, fence: nat): Record {
    Record(p, if previous.Some? then previous.value.revision else 0,
           if previous.Some? then previous.value.epoch + 1 else 1,
           true, q.holder, q.target, q.predecessor, fence, q.now, q.now + q.ttl, None, previous)
  }

  function ReleasedRecord(r: Record, result: nat): Record {
    r.(revision := r.revision + 1, held := false, result := Some(result), prior := Some(r))
  }

  function EventRecord(r: Record, released: Record, result: nat, commit: CommitId, at: int): Event {
    Event(r.path, r.holder, r.target, r.predecessor, result, released.revision, r.epoch, r.fence, r.acquired, r.expires, at,
          commit, r, released)
  }

  function LeaseOf(r: Record): Lease { Lease(r.path, r.revision, r.epoch, r.fence, r, r.expires) }

  function LeasesOf(rows: seq<Record>): (s: seq<Lease>)
    ensures |s| == |rows| && forall i :: 0 <= i < |s| ==> s[i] == LeaseOf(rows[i])
  {
    seq(|rows|, i requires 0 <= i < |rows| => LeaseOf(rows[i]))
  }

  // ---- acquire: what an attempt decides at the head that it reads ----

  predicate HeldBy(r: Option<Record>, h: Holder) { r.Some? && r.value.held && r.value.holder == h }

  predicate Replays(r: Option<Record>, q: Request) {
    && HeldBy(r, q.holder) && r.value.target == q.target && r.value.predecessor == q.predecessor && q.now < r.value.expires
  }

  /** Someone holds the path at the time of the request. */
  predicate Locks(r: Option<Record>, q: Request) { r.Some? && r.value.held && q.now < r.value.expires }

  datatype Decision = Replay | Inconsistent | Locked | Build

  function Decide(c: Commit, q: Request): Decision {
    if forall i :: 0 <= i < |q.paths| ==> Replays(Find(c, q.paths[i]), q) then Replay
    else if exists i :: 0 <= i < |q.paths| && HeldBy(Find(c, q.paths[i]), q.holder) then Inconsistent
    else if exists i :: 0 <= i < |q.paths| && Locks(Find(c, q.paths[i]), q) then Locked
    else Build
  }

  function Fence(fences: map<Path, nat>, p: Path): nat { if p in fences then fences[p] else 0 }

  /** The commit of an attempt: every requested path gets a new record, and nothing else changes. */
  function Taken(id: CommitId, c: Commit, call: nat, q: Request, fences: map<Path, nat>): Commit {
    Commit(Some(id),
           map p | p in c.records.Keys + (set x | x in q.paths) ::
             if p in q.paths then HeldRecord(Find(c, p), p, q, Fence(fences, p)) else c.records[p],
           c.events, Acquires(call, q))
  }

  // ---- release ----

  predicate ReplaysRelease(c: Commit, receipt: Receipt, result: nat, l: Lease) {
    && l.path in c.records
    && var r := c.records[l.path];
    !r.held && r.holder == receipt.holder && r.epoch == l.epoch && r.fence == l.fence && r.result == Some(result)
  }

  /** The lease of the receipt is the current record. */
  predicate Current(c: Commit, holder: Holder, l: Lease) {
    && l.path in c.records
    && var r := c.records[l.path];
    r.held && r.holder == holder && r.epoch == l.epoch && r.fence == l.fence && r == l.digest
  }

  function EventFor(c: Commit, receipt: Receipt, result: nat, at: int, l: Lease): Event
    requires l.path in c.records
  {
    EventRecord(c.records[l.path], ReleasedRecord(c.records[l.path], result), result, receipt.commit, at)
  }

  /** An event that is already stored under the same key must be the same event. */
  predicate EventFits(c: Commit, receipt: Receipt, result: nat, at: int, l: Lease) {
    && l.path in c.records
    && var key := (receipt.holder.mutation, l.path);
    key in c.events ==> c.events[key] == EventFor(c, receipt, result, at, l)
  }

  datatype ReleaseDecision = ReleaseReplay | FencedOut | EventConflict | ReleaseBuild

  function DecideRelease(c: Commit, receipt: Receipt, result: nat, at: int): ReleaseDecision {
    if forall i :: 0 <= i < |receipt.leases| ==> ReplaysRelease(c, receipt, result, receipt.leases[i]) then ReleaseReplay
    else if exists i :: 0 <= i < |receipt.leases| && !Current(c, receipt.holder, receipt.leases[i]) then FencedOut
    else if exists i :: 0 <= i < |receipt.leases| && !EventFits(c, receipt, result, at, receipt.leases[i]) then EventConflict
    else ReleaseBuild
  }

  function LeasePaths(receipt: Receipt): set<Path> { set l | l in receipt.leases :: l.path }

  /** The commit of a release: every leased path is released, and its event stored. */
  function Freed(id: CommitId, c: Commit, receipt: Receipt, result: nat, at: int): Commit
    requires LeasePaths(receipt) <= c.records.Keys
  {
    Commit(Some(id),
           map p | p in c.records :: if p in LeasePaths(receipt) then ReleasedRecord(c.records[p], result) else c.records[p],
           c.events + map p | p in LeasePaths(receipt) ::
             (receipt.holder.mutation, p) :=
               EventRecord(c.records[p], ReleasedRecord(c.records[p], result), result, receipt.commit, at),
           Releases(receipt, result))
  }

  // ---- The remote repository and the coordinators ----

  datatype Call =
    | Acquiring(req: Request, attempt: nat, sent: Option<CommitId>)
    | Releasing(receipt: Receipt, result: nat, now: int, attempts: nat, attempt: nat, sent: Option<CommitId>)
    | Returned(answer: Option<Receipt>)
    | Failed

  /** `sent` holds the ref updates that were sent: each may arrive at any later time, or never. `issued` holds the
      receipts that some call returned. */
  datatype Sys = Sys(
    commits: seq<Commit>, head: CommitId, sent: set<CommitId>, targets: map<nat, nat>, calls: map<nat, Call>,
    issued: set<Receipt>)

  /** `a` is `b` or one of its ancestors. */
  predicate Anc(cs: seq<Commit>, a: CommitId, b: CommitId)
    decreases b
  {
    a == b || (b < |cs| && cs[b].parent.Some? && cs[b].parent.value < b && Anc(cs, a, cs[b].parent.value))
  }

  datatype Move =
    | BeginAcquire(call: nat, req: Request)
    | BeginRelease(call: nat, receipt: Receipt, result: nat, now: int, attempts: nat)
    | Attempt(call: nat, fences: map<Path, nat>)
    | Deliver(commit: CommitId)
    | Reply(call: nat)
    | Fault(call: nat, blind: bool)
    | MoveTarget(target: nat, sha: nat)
    | RecoverMove(paths: seq<Path>, holder: Holder, target: nat, predecessor: nat, result: nat)

  function Rows(c: Commit, paths: seq<Path>): (s: seq<Record>)
    requires forall p :: p in paths ==> p in c.records
    ensures |s| == |paths| && forall i :: 0 <= i < |s| ==> s[i] == c.records[paths[i]]
  {
    seq(|paths|, i requires 0 <= i < |paths| => c.records[paths[i]])
  }

  predicate HasAll(c: Commit, paths: seq<Path>) { forall p :: p in paths ==> p in c.records }

  function ReceiptFor(cs: seq<Commit>, id: CommitId, q: Request, replay: bool): Receipt
    requires id < |cs| && HasAll(cs[id], q.paths)
  {
    Receipt(id, q.target, q.predecessor, q.holder, LeasesOf(Rows(cs[id], q.paths)), replay)
  }

  function Return(s: Sys, x: nat, r: Receipt): Sys { s.(calls := s.calls[x := Returned(Some(r))], issued := s.issued + {r}) }

  function AttemptAcquire(s: Sys, x: nat, q: Request, n: nat, fences: map<Path, nat>): Sys
    requires s.head < |s.commits|
  {
    var c := s.commits[s.head];
    var d := Decide(c, q);
    if d == Replay && HasAll(c, q.paths) then Return(s, x, ReceiptFor(s.commits, s.head, q, true))
    else if d == Build then
      var id := |s.commits|;
      s.(commits := s.commits + [Taken(s.head, c, x, q, fences)], sent := s.sent + {id},
         calls := s.calls[x := Acquiring(q, n, Some(id))])
    else s.(calls := s.calls[x := Failed])
  }

  function AttemptRelease(s: Sys, x: nat, k: Call): Sys
    requires s.head < |s.commits| && k.Releasing?
  {
    var c := s.commits[s.head];
    var d := DecideRelease(c, k.receipt, k.result, k.now);
    if d == ReleaseReplay then s.(calls := s.calls[x := Returned(None)])
    else if d == ReleaseBuild && LeasePaths(k.receipt) <= c.records.Keys then
      var id := |s.commits|;
      s.(commits := s.commits + [Freed(s.head, c, k.receipt, k.result, k.now)], sent := s.sent + {id},
         calls := s.calls[x := Releasing(k.receipt, k.result, k.now, k.attempts, k.attempt, Some(id))])
    else s.(calls := s.calls[x := Failed])
  }

  /** The update of the call's commit is known to have been applied. */
  function Succeed(s: Sys, x: nat): Sys
    requires x in s.calls
  {
    var k := s.calls[x];
    if k.Acquiring? && k.sent.Some? && k.sent.value < |s.commits| && HasAll(s.commits[k.sent.value], k.req.paths) then
      Return(s, x, ReceiptFor(s.commits, k.sent.value, k.req, false))
    else s.(calls := s.calls[x := Returned(None)])
  }

  /** The next round of the retry loop, or its end. */
  function Retry(s: Sys, x: nat): Sys
    requires x in s.calls && (s.calls[x].Acquiring? || s.calls[x].Releasing?)
  {
    match s.calls[x]
    case Acquiring(q, n, _) =>
      s.(calls := s.calls[x := if n >= q.attempts then Failed else Acquiring(q, n + 1, None)])
    case Releasing(r, result, now, attempts, n, _) =>
      s.(calls := s.calls[x := if n >= attempts then Failed else Releasing(r, result, now, attempts, n + 1, None)])
  }

  predicate Waiting(s: Sys, x: nat) {
    x in s.calls && (s.calls[x].Acquiring? || s.calls[x].Releasing?) && s.calls[x].sent.Some?
  }

  /** One step of one actor or of the network. A move that is not possible changes nothing. */
  function Step(s: Sys, m: Move): (t: Sys)
    requires s.head < |s.commits|
    ensures t.head < |t.commits|
  {
    match m
    case BeginAcquire(x, q) =>
      if x in s.calls || !Normal(q.paths) || q.target !in s.targets || s.targets[q.target] != q.predecessor then s
      else s.(calls := s.calls[x := if q.attempts == 0 then Failed else Acquiring(q, 1, None)])
    case BeginRelease(x, r, result, now, attempts) =>
      if x in s.calls || r !in s.issued || r.target !in s.targets || s.targets[r.target] != result then s
      else s.(calls := s.calls[x := if attempts == 0 then Failed else Releasing(r, result, now, attempts, 1, None)])
    case Attempt(x, fences) =>
      if x !in s.calls then s
      else if s.calls[x].Acquiring? && s.calls[x].sent.None? then AttemptAcquire(s, x, s.calls[x].req, s.calls[x].attempt, fences)
      else if s.calls[x].Releasing? && s.calls[x].sent.None? then AttemptRelease(s, x, s.calls[x])
      else s
    case Deliver(c) => if c in s.sent && Anc(s.commits, s.head, c) && c < |s.commits| then s.(head := c) else s
    case Reply(x) => if Waiting(s, x) && Anc(s.commits, s.calls[x].sent.value, s.head) then Succeed(s, x) else s
    case Fault(x, blind) =>
      if !Waiting(s, x) then s
      else if !blind && s.calls[x].sent.value == s.head then Succeed(s, x)
      else Retry(s, x)
    case MoveTarget(t, sha) => s.(targets := s.targets[t := sha])
    case RecoverMove(paths, h, t, p, result) =>
      var r := RecoverApplied(s, paths, h, t, p, result);
      if r.Some? then s.(issued := s.issued + {r.value}) else s
  }

  // ---- requireAuthority ----

  predicate Authority(s: Sys, r: Receipt, now: int) {
    && r.target in s.targets && s.targets[r.target] == r.predecessor && s.head < |s.commits|
    && forall i :: 0 <= i < |r.leases| ==>
         Current(s.commits[s.head], r.holder, r.leases[i]) && now < s.commits[s.head].records[r.leases[i].path].expires
  }

  // ---- recoverApplied ----

  const HISTORY_LIMIT: nat := 10000

  /** `findAcquisitionCommit`: the commit that introduced the record, going back at most `depth` commits. */
  function FindAcquisition(cs: seq<Commit>, cursor: CommitId, p: Path, r: Record, depth: nat): Option<CommitId>
    decreases depth
  {
    if depth == 0 || cursor >= |cs| || Find(cs[cursor], p) != Some(r) then None
    else if cs[cursor].parent.None? || cs[cursor].parent.value >= |cs| then Some(cursor)
    else if Find(cs[cs[cursor].parent.value], p) != Some(r) then Some(cursor)
    else FindAcquisition(cs, cs[cursor].parent.value, p, r, depth - 1)
  }

  predicate Binds(r: Record, h: Holder, target: nat, predecessor: nat) {
    r.holder == h && r.target == target && r.predecessor == predecessor
  }

  /** The stored event of a released record says where and how it was acquired. */
  predicate EventBinds(c: Commit, r: Record, h: Holder, target: nat, predecessor: nat, result: nat) {
    && r.result == Some(result) && (h.mutation, r.path) in c.events
    && var e := c.events[(h.mutation, r.path)];
    && e.path == r.path && e.revision >= 1 && e.epoch >= 1
    && e.holder == h && e.target == target && e.predecessor == predecessor && e.result == result
    && e.release == r && e.epoch == r.epoch && e.fence == r.fence
  }

  /** Where one record of the set was acquired, as far as the history tells. */
  function Origin(s: Sys, r: Record, h: Holder, target: nat, predecessor: nat, result: nat): Option<CommitId>
    requires s.head < |s.commits|
  {
    var c := s.commits[s.head];
    if !Binds(r, h, target, predecessor) then None
    else if r.held then FindAcquisition(s.commits, s.head, r.path, r, HISTORY_LIMIT)
    else if EventBinds(c, r, h, target, predecessor, result) then Some(c.events[(h.mutation, r.path)].commit)
    else None
  }

  /** The lease entry of a record as it was when it was acquired. */
  function Restored(c: Commit, r: Record, h: Holder): Lease {
    if r.held || (h.mutation, r.path) !in c.events then LeaseOf(r)
    else
      var e := c.events[(h.mutation, r.path)];
      Lease(r.path, if e.revision >= 1 then e.revision - 1 else 0, r.epoch, r.fence, e.acquisition, r.expires)
  }

  function RecoverApplied(s: Sys, paths: seq<Path>, h: Holder, target: nat, predecessor: nat, result: nat): Option<Receipt>
    requires s.head < |s.commits|
  {
    var c := s.commits[s.head];
    if !Normal(paths) || target !in s.targets || s.targets[target] != result || result == predecessor then None
    else if !HasAll(c, paths) then None
    else
      var rows := Rows(c, paths);
      if exists i :: 0 <= i < |rows| && rows[i].held != rows[0].held then None
      else
        var origin := Origin(s, rows[0], h, target, predecessor, result);
        if origin.None? then None
        else if exists i :: 0 <= i < |rows| && Origin(s, rows[i], h, target, predecessor, result) != origin then None
        else
          Some(Receipt(origin.value, target, predecessor, h,
                       seq(|rows|, i requires 0 <= i < |rows| => Restored(c, rows[i], h)), true))
  }

  function After(s: Sys, ms: seq<Move>): (t: Sys)
    requires s.head < |s.commits|
    ensures t.head < |t.commits|
    decreases |ms|
  {
    if ms == [] then s else After(Step(s, ms[0]), ms[1..])
  }

  /** An empty state branch. */
  function Start(targets: map<nat, nat>): Sys {
    Sys([Commit(None, map[], map[], Initial)], 0, {}, targets, map[], {})
  }
}
