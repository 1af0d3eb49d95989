/** Recovery of a lease receipt from the history, after the process that had it was lost. */
module FileLeaseRecovery {
  import opened Wrappers
  import opened FileLeaseSpec
  import opened FileLeaseSafety
  import opened FileLeaseRuns

  /** The record of the path is new in this commit. */
  predicate Introduces(cs: seq<Commit>, c: CommitId, p: Path, r: Record) {
    && c < |cs| && Find(cs[c], p) == Some(r)
    && (cs[c].parent.Some? && cs[c].parent.value < |cs| ==> Find(cs[cs[c].parent.value], p) != Some(r))
  }

  /** The number of commits from `a` to its descendant `b`. */
  function Distance(cs: seq<Commit>, a: CommitId, b: CommitId): nat
    requires Anc(cs, a, b)
    decreases b
  {
    if a == b then 0 else 1 + Distance(cs, a, cs[b].parent.value)
  }

  /** The backward scan finds exactly the commit that introduced the record, if that is near enough. */
  lemma {:induction false} ScanIsExact(cs: seq<Commit>, c: CommitId, head: CommitId, p: Path, r: Record, depth: nat)
    requires HistoryOk(cs) && head < |cs| && Anc(cs, c, head) && Introduces(cs, c, p, r) && Find(cs[head], p) == Some(r)
    ensures FindAcquisition(cs, head, p, r, depth) == if Distance(cs, c, head) < depth then Some(c) else None
    decreases head
  {
    assert CommitOk(cs, head);
    if depth > 0 && c != head {
      var q := cs[head].parent.value;
      AncBelow(cs, c, q);
      RankAlong(cs, c, q, p);
      RankAlong(cs, q, head, p);
      ScanIsExact(cs, c, q, p, r, depth - 1);
    }
  }

  /** Every current record was introduced by some commit of the history. */
  lemma {:induction false} IntroducedAt(cs: seq<Commit>, head: CommitId, p: Path, r: Record) returns (c: CommitId)
    requires HistoryOk(cs) && head < |cs| && Find(cs[head], p) == Some(r)
    ensures Anc(cs, c, head) && Introduces(cs, c, p, r)
    decreases head
  {
    assert CommitOk(cs, head);
    c := head;
    if cs[head].parent.Some? && Find(cs[cs[head].parent.value], p) == Some(r) {
      c := IntroducedAt(cs, cs[head].parent.value, p, r);
    }
  }

  lemma IntroducedOnce(cs: seq<Commit>, head: CommitId, p: Path, r: Record, c: CommitId, d: CommitId)
    requires HistoryOk(cs) && head < |cs| && Find(cs[head], p) == Some(r)
    requires Anc(cs, c, head) && Introduces(cs, c, p, r) && Anc(cs, d, head) && Introduces(cs, d, p, r)
    ensures c == d
  {
    var depth := Distance(cs, c, head) + Distance(cs, d, head) + 1;
    ScanIsExact(cs, c, head, p, r, depth);
    ScanIsExact(cs, d, head, p, r, depth);
  }

  function PathsOf(r: Receipt): (s: seq<Path>)
    ensures |s| == |r.leases| && forall i :: 0 <= i < |s| ==> s[i] == r.leases[i].path
  {
    seq(|r.leases|, i requires 0 <= i < |r.leases| => r.leases[i].path)
  }

  /** What `recoverApplied` asks of the target: it is exactly the applied commit. */
  predicate TargetApplied(s: Sys, r: Receipt, result: nat) {
    r.target in s.targets && s.targets[r.target] == result && result != r.predecessor
  }

  function Recovered(s: Sys, r: Receipt, result: nat): Option<Receipt>
    requires s.head < |s.commits|
  {
    RecoverApplied(s, PathsOf(r), r.holder, r.target, r.predecessor, result)
  }

  lemma SameLeases(a: seq<Lease>, b: seq<Lease>)
    requires |a| == |b| && forall i :: 0 <= i < |a| ==> a[i] == b[i]
    ensures a == b
  { }

  /** The row at the head restores to the lease, and has this origin. */
  predicate RowIs(s: Sys, r: Receipt, result: nat, held: bool, l: Lease, origin: Option<CommitId>)
    requires s.head < |s.commits|
  {
    && l.path in s.commits[s.head].records
    && var row := s.commits[s.head].records[l.path];
    && row.held == held && Restored(s.commits[s.head], row, r.holder) == l
    && Origin(s, row, r.holder, r.target, r.predecessor, result) == origin
  }

  predicate RowsAre(s: Sys, r: Receipt, result: nat, held: bool, origins: seq<Option<CommitId>>)
    requires s.head < |s.commits|
  {
    && Normal(PathsOf(r)) && |origins| == |r.leases|
    && forall i :: 0 <= i < |origins| ==> RowIs(s, r, result, held, r.leases[i], origins[i])
  }

  lemma RecoveredFrom(s: Sys, r: Receipt, result: nat, held: bool, origins: seq<Option<CommitId>>)
    requires s.head < |s.commits| && TargetApplied(s, r, result) && RowsAre(s, r, result, held, origins)
    ensures Recovered(s, r, result)
            == if origins[0].Some? && forall i :: 0 <= i < |origins| ==> origins[i] == origins[0]
               then Some(Receipt(origins[0].value, r.target, r.predecessor, r.holder, r.leases, true)) else None
  {
    var head := s.commits[s.head];
    forall p | p in PathsOf(r) ensures p in head.records {
      var i :| 0 <= i < |PathsOf(r)| && PathsOf(r)[i] == p;
      assert RowIs(s, r, result, held, r.leases[i], origins[i]);
    }
    var rows := Rows(head, PathsOf(r));
    forall i | 0 <= i < |rows| ensures rows[i].held == held && Origin(s, rows[i], r.holder, r.target, r.predecessor, result) == origins[i]
                                       && Restored(head, rows[i], r.holder) == r.leases[i]
    { assert RowIs(s, r, result, held, r.leases[i], origins[i]); }
    SameLeases(seq(|rows|, i requires 0 <= i < |rows| => Restored(head, rows[i], r.holder)), r.leases);
  }

  lemma ReceiptPaths(s: Sys, r: Receipt)
    requires SysOk(s) && ReceiptOk(s.commits, s.head, r)
    ensures Normal(PathsOf(r))
  { }

  // ---- Leases that are still held ----

  ghost predicate StillHeld(s: Sys, r: Receipt) {
    s.head < |s.commits| && forall l :: l in r.leases ==> Find(s.commits[s.head], l.path) == Some(l.digest)
  }

  /** One commit of the history, near enough to the head, introduced all leases of the receipt. */
  ghost predicate OneOrigin(s: Sys, r: Receipt, c: CommitId)
    requires s.head < |s.commits|
  {
    && Anc(s.commits, c, s.head) && Distance(s.commits, c, s.head) < HISTORY_LIMIT
    && forall l :: l in r.leases ==> Introduces(s.commits, c, l.path, l.digest)
  }

  /** What the backward scan makes of the commit that introduced a record. */
  function Scanned(s: Sys, c: CommitId): Option<CommitId> {
    if Anc(s.commits, c, s.head) && Distance(s.commits, c, s.head) < HISTORY_LIMIT then Some(c) else None
  }

  /** The lease is the row at the head, and the commit introduced it. */
  predicate HeldFrom(s: Sys, r: Receipt, result: nat, l: Lease, c: CommitId)
    requires s.head < |s.commits|
  {
    && Find(s.commits[s.head], l.path) == Some(l.digest) && l.digest.held
    && Restored(s.commits[s.head], l.digest, r.holder) == l
    && Anc(s.commits, c, s.head) && Introduces(s.commits, c, l.path, l.digest)
    && Origin(s, l.digest, r.holder, r.target, r.predecessor, result) == Scanned(s, c)
  }

  lemma HeldOrigin(s: Sys, r: Receipt, result: nat, l: Lease) returns (c: CommitId)
    requires SysOk(s) && ReceiptOk(s.commits, s.head, r) && StillHeld(s, r) && l in r.leases
    ensures HeldFrom(s, r, result, l, c)
  {
    assert LeaseOk(s.commits[r.commit], r, l);
    c := IntroducedAt(s.commits, s.head, l.path, l.digest);
    ScanIsExact(s.commits, c, s.head, l.path, l.digest, HISTORY_LIMIT);
  }

  lemma {:induction false} HeldOrigins(s: Sys, r: Receipt, result: nat, n: nat) returns (cs: seq<CommitId>)
    requires SysOk(s) && ReceiptOk(s.commits, s.head, r) && StillHeld(s, r) && n <= |r.leases|
    ensures |cs| == n && forall i :: 0 <= i < n ==> HeldFrom(s, r, result, r.leases[i], cs[i])
  {
    if n == 0 { cs := []; }
    else {
      cs := HeldOrigins(s, r, result, n - 1);
      var c := HeldOrigin(s, r, result, r.leases[n - 1]);
      cs := cs + [c];
    }
  }

  lemma HeldRowIs(s: Sys, r: Receipt, result: nat, l: Lease, c: CommitId)
    requires s.head < |s.commits| && HeldFrom(s, r, result, l, c)
    ensures RowIs(s, r, result, true, l, Scanned(s, c))
  { }

  /** The answer, from the commits that introduced the leases. */
  lemma RecoversFrom(s: Sys, r: Receipt, result: nat, cs: seq<CommitId>)
    requires SysOk(s) && ReceiptOk(s.commits, s.head, r) && TargetApplied(s, r, result) && |cs| == |r.leases|
    requires forall i :: 0 <= i < |cs| ==> HeldFrom(s, r, result, r.leases[i], cs[i])
    ensures Recovered(s, r, result)
            == if Scanned(s, cs[0]).Some? && forall i :: 0 <= i < |cs| ==> Scanned(s, cs[i]) == Scanned(s, cs[0])
               then Some(Receipt(cs[0], r.target, r.predecessor, r.holder, r.leases, true)) else None
  {
    var origins := seq(|cs|, i requires 0 <= i < |cs| => Scanned(s, cs[i]));
    ReceiptPaths(s, r);
    forall i | 0 <= i < |r.leases| ensures RowIs(s, r, result, true, r.leases[i], origins[i]) {
      HeldRowIs(s, r, result, r.leases[i], cs[i]);
    }
    RecoveredFrom(s, r, result, true, origins);
  }

  /** While the leases of an issued receipt are held, recovery after the target moved succeeds if and only if one commit,
      less than 10000 commits back, introduced all of them; it then gives the same lease entries and names that commit. */
  lemma RecoversHeld(s: Sys, r: Receipt, result: nat)
    requires Reachable(s) && r in s.issued && TargetApplied(s, r, result) && StillHeld(s, r)
    ensures Recovered(s, r, result).Some? <==> exists c: CommitId :: OneOrigin(s, r, c)
    ensures forall c: CommitId :: OneOrigin(s, r, c) ==>
              Recovered(s, r, result) == Some(Receipt(c, r.target, r.predecessor, r.holder, r.leases, true))
  {
    ReachableOk(s);
    assert ReceiptOk(s.commits, s.head, r);
    var cs := HeldOrigins(s, r, result, |r.leases|);
    RecoversFrom(s, r, result, cs);
    if Recovered(s, r, result).Some? { RecoveredHasOrigin(s, r, result, cs); }
    forall c: CommitId | OneOrigin(s, r, c)
      ensures Recovered(s, r, result) == Some(Receipt(c, r.target, r.predecessor, r.holder, r.leases, true))
    { OriginRecovers(s, r, result, cs, c); }
  }

  lemma RecoveredHasOrigin(s: Sys, r: Receipt, result: nat, cs: seq<CommitId>)
    requires s.head < |s.commits| && |cs| == |r.leases| > 0
    requires forall i :: 0 <= i < |cs| ==> HeldFrom(s, r, result, r.leases[i], cs[i])
    requires Scanned(s, cs[0]).Some? && forall i :: 0 <= i < |cs| ==> Scanned(s, cs[i]) == Scanned(s, cs[0])
    ensures OneOrigin(s, r, cs[0])
  {
    forall l | l in r.leases ensures Introduces(s.commits, cs[0], l.path, l.digest) {
      var i :| 0 <= i < |r.leases| && r.leases[i] == l;
      assert HeldFrom(s, r, result, r.leases[i], cs[i]) && Scanned(s, cs[i]) == Scanned(s, cs[0]);
    }
  }

  lemma OriginRecovers(s: Sys, r: Receipt, result: nat, cs: seq<CommitId>, c: CommitId)
    requires SysOk(s) && |cs| == |r.leases| > 0 && OneOrigin(s, r, c)
    requires forall i :: 0 <= i < |cs| ==> HeldFrom(s, r, result, r.leases[i], cs[i])
    ensures forall i :: 0 <= i < |cs| ==> cs[i] == c && Scanned(s, cs[i]) == Some(c)
  {
    forall i | 0 <= i < |cs| ensures cs[i] == c {
      assert HeldFrom(s, r, result, r.leases[i], cs[i]) && r.leases[i] in r.leases;
      IntroducedOnce(s.commits, s.head, r.leases[i].path, r.leases[i].digest, cs[i], c);
    }
  }

  /** The receipt that an acquire call returned for its own commit recovers unchanged while its leases are held, unless
      that commit lies 10000 or more commits back. */
  lemma RecoversOwn(s: Sys, r: Receipt, result: nat)
    requires Reachable(s) && r in s.issued && !r.replay && TargetApplied(s, r, result) && StillHeld(s, r)
    ensures r.commit < |s.commits| && Anc(s.commits, r.commit, s.head)
    ensures Recovered(s, r, result)
            == if Distance(s.commits, r.commit, s.head) < HISTORY_LIMIT then Some(r.(replay := true)) else None
  {
    ReachableOk(s);
    assert ReceiptOk(s.commits, s.head, r) && CommitOk(s.commits, r.commit);
    forall l | l in r.leases ensures Introduces(s.commits, r.commit, l.path, l.digest) {
      assert LeaseOk(s.commits[r.commit], r, l);
      assert Find(s.commits[r.commit], l.path).Some?;
    }
    RecoversHeld(s, r, result);
    if Distance(s.commits, r.commit, s.head) < HISTORY_LIMIT { assert OneOrigin(s, r, r.commit); }
    else if c :| OneOrigin(s, r, c) {
      var l := r.leases[0];
      assert l in r.leases;
      IntroducedOnce(s.commits, s.head, l.path, l.digest, c, r.commit);
    }
  }

  // ---- Leases that were released ----

  ghost predicate ReleasedWith(s: Sys, r: Receipt, result: nat) {
    s.head < |s.commits| && forall l :: l in r.leases ==> Find(s.commits[s.head], l.path) == Some(ReleasedRecord(l.digest, result))
  }

  /** The acquisition commit that the stored release event of the lease names. */
  function NamedOrigin(s: Sys, r: Receipt, l: Lease): Option<CommitId>
    requires s.head < |s.commits|
  {
    var events := s.commits[s.head].events;
    if (r.holder.mutation, l.path) in events then Some(events[(r.holder.mutation, l.path)].commit) else None
  }

  lemma ReleasedOrigin(s: Sys, r: Receipt, result: nat, l: Lease)
    requires SysOk(s) && ReceiptOk(s.commits, s.head, r) && ReleasedWith(s, r, result) && l in r.leases
    ensures NamedOrigin(s, r, l).Some? && RowIs(s, r, result, false, l, NamedOrigin(s, r, l))
  {
    assert LeaseOk(s.commits[r.commit], r, l);
    RecordsNamed(s.commits, r.commit, l.path);
    ReleasedHaveEvents(s.commits, s.head, l.path);
  }

  /** After the leases were released, in one call or several, recovery succeeds if and only if all stored release events
      name the same acquisition commit; it then gives the lease entries as they were acquired, and that commit. */
  lemma RecoversReleased(s: Sys, r: Receipt, result: nat)
    requires Reachable(s) && r in s.issued && TargetApplied(s, r, result) && ReleasedWith(s, r, result)
    ensures r.leases != []
    ensures Recovered(s, r, result).Some? <==>
              forall l, m :: l in r.leases && m in r.leases ==> NamedOrigin(s, r, l) == NamedOrigin(s, r, m)
    ensures Recovered(s, r, result).Some? ==>
              NamedOrigin(s, r, r.leases[0]).Some?
              && Recovered(s, r, result)
                 == Some(Receipt(NamedOrigin(s, r, r.leases[0]).value, r.target, r.predecessor, r.holder, r.leases, true))
  {
    ReachableOk(s);
    assert ReceiptOk(s.commits, s.head, r);
    ReceiptPaths(s, r);
    var origins := seq(|r.leases|, i requires 0 <= i < |r.leases| => NamedOrigin(s, r, r.leases[i]));
    forall i | 0 <= i < |r.leases| ensures RowIs(s, r, result, false, r.leases[i], origins[i]) && origins[i].Some? {
      assert r.leases[i] in r.leases;
      ReleasedOrigin(s, r, result, r.leases[i]);
    }
    RecoveredFrom(s, r, result, false, origins);
    SameOrigins(s, r, origins);
  }

  lemma SameOrigins(s: Sys, r: Receipt, origins: seq<Option<CommitId>>)
    requires s.head < |s.commits| && r.leases != [] && |origins| == |r.leases|
    requires forall i :: 0 <= i < |origins| ==> origins[i] == NamedOrigin(s, r, r.leases[i])
    ensures (forall i :: 0 <= i < |origins| ==> origins[i] == origins[0]) <==>
              forall l, m :: l in r.leases && m in r.leases ==> NamedOrigin(s, r, l) == NamedOrigin(s, r, m)
  {
    if forall i :: 0 <= i < |origins| ==> origins[i] == origins[0] {
      forall l | l in r.leases ensures NamedOrigin(s, r, l) == origins[0] { var i :| 0 <= i < |r.leases| && r.leases[i] == l; }
    } else {
      var i :| 0 <= i < |origins| && origins[i] != origins[0];
      assert r.leases[i] in r.leases && r.leases[0] in r.leases;
    }
  }

  /** The release of the receipt itself is in the history. */
  predicate ReleasedBy(s: Sys, r: Receipt, result: nat, k: CommitId) {
    k < |s.commits| && Anc(s.commits, k, s.head) && s.commits[k].cause == Releases(r, result)
  }

  lemma OwnReleaseNames(s: Sys, r: Receipt, result: nat, k: CommitId, l: Lease)
    requires SysOk(s) && ReleasedBy(s, r, result, k) && l in r.leases
    ensures NamedOrigin(s, r, l) == Some(r.commit)
  {
    assert CommitOk(s.commits, k);
    assert FreedBy(s.commits[s.commits[k].parent.value], s.commits[k], r, result, l);
    EventsStay(s.commits, k, s.head, (r.holder.mutation, l.path));
  }

  /** A receipt that was itself released recovers unchanged, however long ago that was, as long as nobody takes its paths
      again. */
  lemma RecoversOwnReleased(s: Sys, r: Receipt, result: nat, k: CommitId)
    requires Reachable(s) && r in s.issued && TargetApplied(s, r, result) && ReleasedWith(s, r, result)
    requires ReleasedBy(s, r, result, k)
    ensures Recovered(s, r, result) == Some(r.(replay := true))
  {
    ReachableOk(s);
    forall l | l in r.leases ensures NamedOrigin(s, r, l) == Some(r.commit) { OwnReleaseNames(s, r, result, k, l); }
    RecoversReleased(s, r, result);
  }

  // ---- When a receipt recovers ----

  /** Of a set of which some paths are held and others released nothing is recovered. */
  lemma RecoversMixed(s: Sys, r: Receipt, result: nat, l: Lease, m: Lease)
    requires s.head < |s.commits| && l in r.leases && m in r.leases
    requires var held, freed := Find(s.commits[s.head], l.path), Find(s.commits[s.head], m.path);
             held.Some? && freed.Some? && held.value.held && !freed.value.held
    ensures Recovered(s, r, result).None?
  {
    var head, paths := s.commits[s.head], PathsOf(r);
    var i :| 0 <= i < |r.leases| && r.leases[i] == l;
    var j :| 0 <= j < |r.leases| && r.leases[j] == m;
    if HasAll(head, paths) { assert Rows(head, paths)[i].held && !Rows(head, paths)[j].held; }
  }

  /** The recovered entry of a lease shows how its path stands at the head. */
  lemma RecoveredRow(s: Sys, r: Receipt, result: nat, i: nat)
    requires SysOk(s) && ReceiptOk(s.commits, s.head, r) && i < |r.leases|
    requires Recovered(s, r, result).Some? && Recovered(s, r, result).value.leases == r.leases
    ensures var l, row := r.leases[i], Find(s.commits[s.head], r.leases[i].path);
            && row.Some? && row == Some(if row.value.held then l.digest else ReleasedRecord(l.digest, result))
  {
    var head, paths := s.commits[s.head], PathsOf(r);
    assert paths[i] == r.leases[i].path && paths[i] in paths;
    var row := Rows(head, paths)[i];
    assert Restored(head, row, r.holder) == r.leases[i];
    RecordsNamed(s.commits, s.head, paths[i]);
    ReleasedHaveEvents(s.commits, s.head, paths[i]);
  }

  lemma RecoveredIsUniform(s: Sys, r: Receipt, result: nat)
    requires SysOk(s) && ReceiptOk(s.commits, s.head, r)
    requires Recovered(s, r, result).Some? && Recovered(s, r, result).value.leases == r.leases
    ensures StillHeld(s, r) || ReleasedWith(s, r, result)
  {
    var m := r.leases[0];
    var first := Find(s.commits[s.head], m.path);
    RecoveredRow(s, r, result, 0);
    forall l | l in r.leases
      ensures Find(s.commits[s.head], l.path) == Some(if first.value.held then l.digest else ReleasedRecord(l.digest, result))
    {
      var i :| 0 <= i < |r.leases| && r.leases[i] == l;
      RecoveredRow(s, r, result, i);
      var row := Find(s.commits[s.head], l.path).value;
      if row.held && !first.value.held { RecoversMixed(s, r, result, l, m); }
      if !row.held && first.value.held { RecoversMixed(s, r, result, m, l); }
    }
  }

  /** Recovery gives the lease entries of an issued receipt back if and only if all of them are still held and one near
      commit introduced them, or all of them were released for this result and the stored events name one commit. */
  lemma RecoversExactly(s: Sys, r: Receipt, result: nat)
    requires Reachable(s) && r in s.issued && TargetApplied(s, r, result)
    ensures Recovered(s, r, result).Some? && Recovered(s, r, result).value.leases == r.leases <==>
              || (StillHeld(s, r) && exists c: CommitId :: OneOrigin(s, r, c))
              || (ReleasedWith(s, r, result)
                  && forall l, m :: l in r.leases && m in r.leases ==> NamedOrigin(s, r, l) == NamedOrigin(s, r, m))
  {
    ReachableOk(s);
    assert ReceiptOk(s.commits, s.head, r);
    if Recovered(s, r, result).Some? && Recovered(s, r, result).value.leases == r.leases { RecoveredIsUniform(s, r, result); }
    if StillHeld(s, r) { RecoversHeld(s, r, result); }
    if ReleasedWith(s, r, result) { RecoversReleased(s, r, result); }
  }

  /** Recovery answers nobody else: only when the target stands at the result, which is not the predecessor, and every path was
      acquired, and if it is released was released with this result, by this very holder for this target and predecessor. */
  lemma RecoversForItsHolder(s: Sys, paths: seq<Path>, h: Holder, target: nat, predecessor: nat, result: nat, p: Path)
    requires Reachable(s) && RecoverApplied(s, paths, h, target, predecessor, result).Some? && p in paths
    ensures Normal(paths) && target in s.targets && s.targets[target] == result && result != predecessor
    ensures var row := Find(s.commits[s.head], p);
            && row.Some? && row.value.holder == h && row.value.target == target && row.value.predecessor == predecessor
            && (!row.value.held ==> row.value.result == Some(result))
    ensures var r := RecoverApplied(s, paths, h, target, predecessor, result).value;
            && r.holder == h && r.target == target && r.predecessor == predecessor && r.replay && |r.leases| == |paths|
            && ReceiptOk(s.commits, s.head, r)
  {
    ReachableOk(s);
    RecoveredOk(s, paths, h, target, predecessor, result);
    var i :| 0 <= i < |paths| && paths[i] == p;
    var row := Rows(s.commits[s.head], paths)[i];
    assert Origin(s, row, h, target, predecessor, result).Some?;
    RecordsNamed(s.commits, s.head, p);
  }

  // ---- The scan and the recovery as they run ----

  /** `findAcquisitionCommit` */
  method FindAcquisitionCommit(cs: seq<Commit>, head: CommitId, p: Path, r: Record) returns (c: Option<CommitId>)
    requires head < |cs|
    ensures c == FindAcquisition(cs, head, p, r, HISTORY_LIMIT)
  {
    var cursor: CommitId := head;
    var depth: nat := 0;
    while depth < HISTORY_LIMIT
      invariant depth <= HISTORY_LIMIT && cursor < |cs|
      invariant FindAcquisition(cs, head, p, r, HISTORY_LIMIT) == FindAcquisition(cs, cursor, p, r, HISTORY_LIMIT - depth)
    {
      if cursor >= |cs| || Find(cs[cursor], p) != Some(r) { return None; }
      if cs[cursor].parent.None? || cs[cursor].parent.value >= |cs| { return Some(cursor); }
      if Find(cs[cs[cursor].parent.value], p) != Some(r) { return Some(cursor); }
      cursor := cs[cursor].parent.value;
      depth := depth + 1;
    }
    c := None;
  }

  method FindOrigin(s: Sys, r: Record, h: Holder, target: nat, predecessor: nat, result: nat) returns (c: Option<CommitId>)
    requires s.head < |s.commits|
    ensures c == Origin(s, r, h, target, predecessor, result)
  {
    if !Binds(r, h, target, predecessor) { return None; }
    if r.held {
      c := FindAcquisitionCommit(s.commits, s.head, r.path, r);
    } else {
      var head := s.commits[s.head];
      c := if EventBinds(head, r, h, target, predecessor, result) then Some(head.events[(h.mutation, r.path)].commit) else None;
    }
  }

  /** The loop of `recoverApplied` over the records of the set. */
  method Recover(s: Sys, paths: seq<Path>, h: Holder, target: nat, predecessor: nat, result: nat) returns (receipt: Option<Receipt>)
    requires s.head < |s.commits|
    ensures receipt == RecoverApplied(s, paths, h, target, predecessor, result)
  {
    var head := s.commits[s.head];
    if !Normal(paths) || target !in s.targets || s.targets[target] != result || result == predecessor { return None; }
    if !HasAll(head, paths) { return None; }
    var rows := Rows(head, paths);
    if exists i :: 0 <= i < |rows| && rows[i].held != rows[0].held { return None; }
    var origin := FindOrigin(s, rows[0], h, target, predecessor, result);
    if origin.None? { return None; }
    var recovered := [];
    var i := 0;
    while i < |rows|
      invariant i <= |rows| && |recovered| == i
      invariant forall j :: 0 <= j < i ==> Origin(s, rows[j], h, target, predecessor, result) == origin
      invariant forall j :: 0 <= j < i ==> recovered[j] == Restored(head, rows[j], h)
    {
      var c := FindOrigin(s, rows[i], h, target, predecessor, result);
      if c != origin { return None; }
      recovered := recovered + [Restored(head, rows[i], h)];
      i := i + 1;
    }
    assert recovered == seq(|rows|, i requires 0 <= i < |rows| => Restored(head, rows[i], h));
    receipt := Some(Receipt(origin.value, target, predecessor, h, recovered, true));
  }
}
