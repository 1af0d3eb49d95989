/** A receipt that recovery refuses: two paths are acquired one after the other, and a third call of the same holder for
    both of them is answered as a replay. No single commit introduced both leases; and when they are released through the
    first two receipts, the stored events name two commits. */
module FileLeaseSplit {
  import opened Wrappers
  import opened FileLeaseSpec
  import opened FileLeaseSafety
  import opened FileLeaseRuns
  import opened FileLeaseRecovery
  import opened FileLeaseCounterexample

  function For(paths: seq<Path>): Request { Request(paths, Holder(1, 1, 1), 0, 5, 100, 60, 1) }

  /** The records of the two acquisitions. */
  function Held(p: Path): Record { HeldRecord(None, p, For([p]), 0) }

  function OneReceipt(p: Path, commit: CommitId): Receipt { Receipt(commit, 0, 5, Holder(1, 1, 1), [LeaseOf(Held(p))], false) }

  function SplitReceipt(): Receipt { Receipt(2, 0, 5, Holder(1, 1, 1), [LeaseOf(Held(0)), LeaseOf(Held(1))], true) }

  /** `s` is a state of a run, and its commits are a chain. */
  ghost predicate Chained(s: Sys, n: nat) {
    && Run(s, For([0])) && |s.commits| == n + 1 && s.head == n
    && s.commits[0].parent.None? && forall i :: 0 < i <= n ==> s.commits[i].parent == Some(i - 1)
  }

  lemma LastAnc(cs: seq<Commit>, n: nat)
    requires |cs| == n + 2 && cs[n + 1].parent == Some(n)
    ensures Anc(cs, n, n + 1)
  { assert Anc(cs, n, n); }

  lemma ChainMore(s: Sys, n: nat, t: Sys, d: Commit)
    requires Chained(s, n) && Run(t, For([0])) && t.commits == s.commits + [d] && t.head == n + 1 && d.parent == Some(n)
    ensures Chained(t, n + 1) && t.commits[..n + 1] == s.commits && t.commits[n + 1] == d
  { }

  // ---- Two acquisitions ----

  lemma TakesOne(c: Commit, id: CommitId, x: nat, p: Path)
    requires p !in c.records
    ensures Decide(c, For([p])) == Build && Taken(id, c, x, For([p]), map[]).records == c.records[p := Held(p)]
    ensures Taken(id, c, x, For([p]), map[]).events == c.events
  {
    assert For([p]).paths[0] == p;
    BuildsExactly(c, For([p]));
  }

  lemma BeginOne(s: Sys, x: nat, q: Request) returns (t: Sys)
    requires Run(s, For([0])) && x !in s.calls && s.targets == map[0 := 5] && Normal(q.paths) && q == For(q.paths)
    ensures Run(t, For([0])) && t == s.(calls := s.calls[x := Acquiring(q, 1, None)])
  { t := Onward(s, BeginAcquire(x, q), For([0])); }

  lemma AttemptOne(s: Sys, n: nat, x: nat, p: Path) returns (t: Sys)
    requires Chained(s, n) && x in s.calls && s.calls[x] == Acquiring(For([p]), 1, None) && p !in s.commits[n].records
    ensures Run(t, For([0]))
    ensures t == s.(commits := s.commits + [Taken(n, s.commits[n], x, For([p]), map[])], sent := s.sent + {n + 1},
                    calls := s.calls[x := Acquiring(For([p]), 1, Some(n + 1))])
  {
    TakesOne(s.commits[n], n, x, p);
    t := Onward(s, Attempt(x, map[]), For([0]));
  }

  lemma DeliverOne(s: Sys, n: nat) returns (t: Sys)
    requires Run(s, For([0])) && |s.commits| == n + 2 && s.head == n && n + 1 in s.sent && s.commits[n + 1].parent == Some(n)
    ensures Run(t, For([0])) && t == s.(head := n + 1)
  {
    LastAnc(s.commits, n);
    t := Onward(s, Deliver(n + 1), For([0]));
  }

  lemma ReplyOne(s: Sys, n: nat, x: nat, p: Path) returns (t: Sys)
    requires Run(s, For([0])) && s.head == n + 1 && |s.commits| == n + 2
    requires x in s.calls && s.calls[x] == Acquiring(For([p]), 1, Some(n + 1))
    requires p in s.commits[n + 1].records && s.commits[n + 1].records[p] == Held(p)
    ensures Run(t, For([0])) && t == Return(s, x, OneReceipt(p, n + 1))
  {
    assert Anc(s.commits, n + 1, n + 1);
    assert HasAll(s.commits[n + 1], [p]);
    assert LeasesOf(Rows(s.commits[n + 1], [p])) == [LeaseOf(Held(p))];
    t := Onward(s, Reply(x), For([0]));
  }

  /** One call acquires one path: its update arrives, and it gets its receipt. */
  lemma AcquireOne(s: Sys, n: nat, x: nat, p: Path) returns (t: Sys)
    requires Chained(s, n) && x !in s.calls && p !in s.commits[n].records && s.targets == map[0 := 5]
    ensures Chained(t, n + 1) && t.commits[..n + 1] == s.commits && t.targets == s.targets
    ensures t.commits[n + 1].records == s.commits[n].records[p := Held(p)] && t.commits[n + 1].events == s.commits[n].events
    ensures t.calls.Keys == s.calls.Keys + {x} && t.issued == s.issued + {OneReceipt(p, n + 1)}
  {
    TakesOne(s.commits[n], n, x, p);
    t := BeginOne(s, x, For([p]));
    t := AttemptOne(t, n, x, p);
    t := DeliverOne(t, n);
    t := ReplyOne(t, n, x, p);
    ChainMore(s, n, t, Taken(n, s.commits[n], x, For([p]), map[]));
  }

  // ---- The replay for both ----

  /** Both paths are held, by two commits; the third call has got its receipt, and the target has moved. */
  ghost predicate Split(s: Sys) {
    && Chained(s, 2) && s.targets == map[0 := 6] && s.calls.Keys == {1, 2, 3}
    && s.commits[0].records == map[] && s.commits[1].records == map[0 := Held(0)] && s.commits[2].records == map[0 := Held(0), 1 := Held(1)]
    && s.commits[2].events == map[]
    && OneReceipt(0, 1) in s.issued && OneReceipt(1, 2) in s.issued && SplitReceipt() in s.issued
  }

  lemma ReplayBoth(s: Sys) returns (t: Sys)
    requires Run(s, For([0])) && s.head == 2 && |s.commits| == 3 && s.commits[2].records == map[0 := Held(0), 1 := Held(1)]
    requires 3 in s.calls && s.calls[3] == Acquiring(For([0, 1]), 1, None)
    ensures Run(t, For([0])) && t == Return(s, 3, SplitReceipt())
  {
    var q := For([0, 1]);
    assert Decide(s.commits[2], q) == Replay;
    assert LeasesOf(Rows(s.commits[2], q.paths)) == [LeaseOf(Held(0)), LeaseOf(Held(1))];
    t := Onward(s, Attempt(3, map[]), For([0]));
  }

  lemma TargetMoves(s: Sys) returns (t: Sys)
    requires Run(s, For([0])) && s.targets == map[0 := 5]
    ensures Run(t, For([0])) && t == s.(targets := map[0 := 6])
  { t := Onward(s, MoveTarget(0, 6), For([0])); }

  /** Each path has been acquired by its own call. */
  ghost predicate Apart(s: Sys) {
    && Chained(s, 2) && s.targets == map[0 := 5] && s.calls.Keys == {1, 2}
    && s.commits[0].records == map[] && s.commits[1].records == map[0 := Held(0)]
    && s.commits[2].records == map[0 := Held(0), 1 := Held(1)] && s.commits[2].events == map[]
    && OneReceipt(0, 1) in s.issued && OneReceipt(1, 2) in s.issued
  }

  lemma AcquireBoth() returns (s: Sys)
    ensures Apart(s)
  {
    s := Start(Targets(For([0])));
    assert s == After(s, []);
    s := AcquireOne(s, 0, 1, 0);
    var first := s;
    s := AcquireOne(s, 1, 2, 1);
    assert s.commits[1] == first.commits[1] && s.commits[0] == first.commits[0];
  }

  lemma SplitState() returns (s: Sys)
    ensures Split(s)
  {
    s := AcquireBoth();
    s := BeginOne(s, 3, For([0, 1]));
    s := ReplayBoth(s);
    s := TargetMoves(s);
  }

  /** No commit introduced both records. */
  lemma NotBoth(s: Sys, c: CommitId)
    requires Split(s)
    ensures !(Introduces(s.commits, c, 0, Held(0)) && Introduces(s.commits, c, 1, Held(1)))
  { if c == 2 { assert s.commits[2].parent == Some(1); } }

  /** Recovery refuses the receipt while both leases are held. */
  lemma HeldSplitRefused(s: Sys)
    requires Split(s)
    ensures Reachable(s) && TargetApplied(s, SplitReceipt(), 6) && StillHeld(s, SplitReceipt())
    ensures Recovered(s, SplitReceipt(), 6).None?
  {
    var r := SplitReceipt();
    assert Reachable(s);
    RecoversHeld(s, r, 6);
    assert LeaseOf(Held(0)) == r.leases[0] && LeaseOf(Held(1)) == r.leases[1];
    assert r.leases[0] in r.leases && r.leases[1] in r.leases;
    forall c: CommitId ensures !OneOrigin(s, r, c) { NotBoth(s, c); }
  }

  // ---- Two releases ----

  lemma FreesOne(c: Commit, id: CommitId, p: Path, acquired: CommitId)
    requires p in c.records && c.records[p] == Held(p) && (1, p) !in c.events
    ensures var r := OneReceipt(p, acquired);
            && DecideRelease(c, r, 6, 110) == ReleaseBuild && LeasePaths(r) == {p} && LeasePaths(r) <= c.records.Keys
            && Freed(id, c, r, 6, 110).records == c.records[p := ReleasedRecord(Held(p), 6)]
            && Freed(id, c, r, 6, 110).events
               == c.events[(1, p) := EventRecord(Held(p), ReleasedRecord(Held(p), 6), 6, acquired, 110)]
  {
    var r := OneReceipt(p, acquired);
    assert r.leases[0] == LeaseOf(Held(p));
    assert LeasePaths(r) == {p};
  }

  lemma BeginFree(s: Sys, x: nat, r: Receipt) returns (t: Sys)
    requires Run(s, For([0])) && x !in s.calls && s.targets == map[0 := 6] && r in s.issued && r.target == 0
    ensures Run(t, For([0])) && t == s.(calls := s.calls[x := Releasing(r, 6, 110, 1, 1, None)])
  { t := Onward(s, BeginRelease(x, r, 6, 110, 1), For([0])); }

  lemma FreeOne(s: Sys, n: nat, x: nat, p: Path, acquired: CommitId) returns (t: Sys)
    requires Chained(s, n) && x in s.calls && s.calls[x] == Releasing(OneReceipt(p, acquired), 6, 110, 1, 1, None)
    requires p in s.commits[n].records && s.commits[n].records[p] == Held(p) && (1, p) !in s.commits[n].events
    ensures Run(t, For([0])) && LeasePaths(OneReceipt(p, acquired)) <= s.commits[n].records.Keys
    ensures t == s.(commits := s.commits + [Freed(n, s.commits[n], OneReceipt(p, acquired), 6, 110)], sent := s.sent + {n + 1},
                    calls := s.calls[x := Releasing(OneReceipt(p, acquired), 6, 110, 1, 1, Some(n + 1))])
  {
    FreesOne(s.commits[n], n, p, acquired);
    t := Onward(s, Attempt(x, map[]), For([0]));
  }

  lemma ReleaseOne(s: Sys, n: nat, x: nat, p: Path, acquired: CommitId) returns (t: Sys)
    requires Chained(s, n) && x !in s.calls && s.targets == map[0 := 6] && OneReceipt(p, acquired) in s.issued
    requires p in s.commits[n].records && s.commits[n].records[p] == Held(p) && (1, p) !in s.commits[n].events
    ensures Chained(t, n + 1) && t.targets == s.targets && t.issued == s.issued && t.calls.Keys == s.calls.Keys + {x}
    ensures t.commits[n + 1].records == s.commits[n].records[p := ReleasedRecord(Held(p), 6)]
    ensures t.commits[n + 1].events
            == s.commits[n].events[(1, p) := EventRecord(Held(p), ReleasedRecord(Held(p), 6), 6, acquired, 110)]
  {
    FreesOne(s.commits[n], n, p, acquired);
    t := BeginFree(s, x, OneReceipt(p, acquired));
    t := FreeOne(t, n, x, p, acquired);
    t := DeliverOne(t, n);
    ChainMore(s, n, t, Freed(n, s.commits[n], OneReceipt(p, acquired), 6, 110));
  }

  /** Recovery refuses the receipt after both leases were released, too. */
  lemma ReleasedSplitRefused(s: Sys) returns (t: Sys)
    requires Split(s)
    ensures Reachable(t) && SplitReceipt() in t.issued && TargetApplied(t, SplitReceipt(), 6) && ReleasedWith(t, SplitReceipt(), 6)
    ensures Recovered(t, SplitReceipt(), 6).None?
  {
    t := ReleaseOne(s, 2, 4, 0, 1);
    t := ReleaseOne(t, 3, 5, 1, 2);
    assert Reachable(t);
    var r := SplitReceipt();
    assert r.leases[0] == LeaseOf(Held(0)) && r.leases[1] == LeaseOf(Held(1));
    RecoversReleased(t, r, 6);
    assert NamedOrigin(t, r, r.leases[0]) == Some(1) && NamedOrigin(t, r, r.leases[1]) == Some(2);
    assert r.leases[0] in r.leases && r.leases[1] in r.leases;
  }

  /** So a receipt that a legal call returned need not be recoverable, whether its leases are held or released. */
  lemma SplitIsRefused() returns (s: Sys, t: Sys, r: Receipt)
    ensures Reachable(s) && r in s.issued && TargetApplied(s, r, 6) && StillHeld(s, r) && Recovered(s, r, 6).None?
    ensures Reachable(t) && r in t.issued && TargetApplied(t, r, 6) && ReleasedWith(t, r, 6) && Recovered(t, r, 6).None?
  {
    s := SplitState();
    HeldSplitRefused(s);
    t := ReleasedSplitRefused(s);
    r := SplitReceipt();
  }
}
