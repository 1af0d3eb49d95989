/** Any acquire call that may try twice can raise its epochs twice. Its first update arrives after the call gave up on it.
    Then the lease ends before the second try: another call of the same holder finds the lease, gets a receipt and
    releases it; or, with a time to live that is not positive, another holder takes over and is expired as well. */
module FileLeaseCounterexample {
  import opened Wrappers
  import opened FileLeaseSpec
  import opened FileLeaseSafety
  import opened FileLeaseRuns

  function Targets(q: Request): map<nat, nat> { map[q.target := q.predecessor] }

  /** A state of a run that starts with the target where the request expects it. */
  ghost predicate Run(s: Sys, q: Request) { s.head < |s.commits| && Later(Start(Targets(q)), s) }

  lemma Onward(s: Sys, m: Move, q: Request) returns (t: Sys)
    requires Run(s, q)
    ensures Run(t, q) && t == Step(s, m)
  {
    var ms :| s == After(Start(Targets(q)), ms);
    AfterMore(Start(Targets(q)), ms, [m]);
    assert [m][1..] == [];
    assert After(After(Start(Targets(q)), ms), [m]) == Step(s, m) by { assert After(Step(s, m), []) == Step(s, m); }
    t := Step(s, m);
  }

  /** The commits of the first and of the second try. */
  function Root(): Commit { Commit(None, map[], map[], Initial) }

  function First(x: nat, q: Request): Commit { Taken(0, Root(), x, q, map[]) }

  predicate Retries(s: Sys, x: nat, q: Request) { x in s.calls && s.calls[x] == Acquiring(q, 2, None) }

  /** The first update has arrived, and the call is about to try again. */
  predicate Landed(s: Sys, x: nat, q: Request) {
    && s.commits == [Root(), First(x, q)] && s.head == 1 && s.sent == {1}
    && s.calls == map[x := Acquiring(q, 2, None)] && s.targets == Targets(q)
  }

  lemma FirstBuild(x: nat, q: Request)
    requires Normal(q.paths)
    ensures Decide(Root(), q) == Build
    ensures forall p :: p in q.paths ==> Find(First(x, q), p) == Some(HeldRecord(None, p, q, 0))
    ensures First(x, q).records.Keys == set p | p in q.paths
  {
    BuildsExactly(Root(), q);
    forall p | p in q.paths ensures Find(First(x, q), p) == Some(HeldRecord(None, p, q, 0)) { assert p in First(x, q).records; }
  }

  lemma FirstTry(x: nat, q: Request) returns (s: Sys)
    requires Normal(q.paths) && q.attempts >= 2
    ensures Run(s, q)
    ensures s == Sys([Root(), First(x, q)], 0, {1}, Targets(q), map[x := Acquiring(q, 1, Some(1))], {})
  {
    s := Start(Targets(q));
    assert s == After(s, []);
    FirstBuild(x, q);
    s := Onward(s, BeginAcquire(x, q), q);
    s := Onward(s, Attempt(x, map[]), q);
  }

  lemma LateUpdate(x: nat, q: Request) returns (s: Sys)
    requires Normal(q.paths) && q.attempts >= 2
    ensures Run(s, q) && Landed(s, x, q)
  {
    s := FirstTry(x, q);
    s := Onward(s, Fault(x, false), q);
    s := Onward(s, Deliver(1), q);
  }

  // ---- A release through another receipt ----

  function OtherReceipt(x: nat, q: Request): Receipt
    requires HasAll(First(x, q), q.paths)
  {
    ReceiptFor([Root(), First(x, q)], 1, q, true)
  }

  lemma SecondReceipt(s: Sys, x: nat, q: Request) returns (t: Sys)
    requires Run(s, q) && Landed(s, x, q) && Normal(q.paths) && q.ttl > 0
    ensures Run(t, q) && HasAll(First(x, q), q.paths) && OtherReceipt(x, q) in t.issued
    ensures t.commits == s.commits && t.head == 1 && t.sent == {1} && t.targets == s.targets
    ensures Retries(t, x, q) && t.calls.Keys == {x, x + 1}
  {
    FirstBuild(x, q);
    t := Onward(s, BeginAcquire(x + 1, q.(attempts := 1)), q);
    ReplaysFirst(t, x, q);
    t := Onward(t, Attempt(x + 1, map[]), q);
  }

  lemma ReplaysFirst(s: Sys, x: nat, q: Request)
    requires s.commits == [Root(), First(x, q)] && s.head == 1 && Normal(q.paths) && q.ttl > 0
    requires x + 1 in s.calls && s.calls[x + 1] == Acquiring(q.(attempts := 1), 1, None)
    ensures HasAll(First(x, q), q.paths) && Step(s, Attempt(x + 1, map[])) == Return(s, x + 1, OtherReceipt(x, q))
  {
    FirstBuild(x, q);
    forall i | 0 <= i < |q.paths| ensures Replays(Find(First(x, q), q.paths[i]), q) { assert q.paths[i] in q.paths; }
    assert Decide(First(x, q), q.(attempts := 1)) == Replay;
  }

  /** The leases of that receipt are the current records. */
  lemma OtherLeases(x: nat, q: Request)
    requires Normal(q.paths)
    ensures HasAll(First(x, q), q.paths) && |OtherReceipt(x, q).leases| == |q.paths|
    ensures forall i :: 0 <= i < |q.paths| ==>
              OtherReceipt(x, q).leases[i] == LeaseOf(HeldRecord(None, q.paths[i], q, 0))
              && Current(First(x, q), q.holder, OtherReceipt(x, q).leases[i])
  {
    FirstBuild(x, q);
    forall i | 0 <= i < |q.paths| ensures Find(First(x, q), q.paths[i]) == Some(HeldRecord(None, q.paths[i], q, 0)) {
      assert q.paths[i] in q.paths;
    }
  }

  lemma OtherPaths(x: nat, q: Request)
    requires Normal(q.paths) && HasAll(First(x, q), q.paths)
    ensures LeasePaths(OtherReceipt(x, q)) == (set p | p in q.paths) == First(x, q).records.Keys
  {
    var r := OtherReceipt(x, q);
    FirstBuild(x, q);
    OtherLeases(x, q);
    forall p | p in q.paths ensures p in LeasePaths(r) {
      var i :| 0 <= i < |q.paths| && q.paths[i] == p;
      assert r.leases[i].path == p && r.leases[i] in r.leases;
    }
    forall p | p in LeasePaths(r) ensures p in q.paths { var l := LeaseInPaths(r, p); }
  }

  lemma ReleaseBuilds(x: nat, q: Request, result: nat)
    requires Normal(q.paths) && HasAll(First(x, q), q.paths)
    ensures DecideRelease(First(x, q), OtherReceipt(x, q), result, q.now) == ReleaseBuild
  {
    OtherLeases(x, q);
    assert !ReplaysRelease(First(x, q), OtherReceipt(x, q), result, OtherReceipt(x, q).leases[0]);
  }

  lemma ReleasedEnds(x: nat, q: Request, result: nat)
    requires Normal(q.paths) && HasAll(First(x, q), q.paths)
    ensures LeasePaths(OtherReceipt(x, q)) <= First(x, q).records.Keys
    ensures Decide(Freed(1, First(x, q), OtherReceipt(x, q), result, q.now), q) == Build
  {
    OtherPaths(x, q);
    var c := Freed(1, First(x, q), OtherReceipt(x, q), result, q.now);
    forall p | p in q.paths ensures Find(c, p).Some? && !Find(c, p).value.held { assert p in c.records; }
    BuildsExactly(c, q);
  }

  /** One attempt of a release that may build sends its commit. */
  lemma SendsRelease(s: Sys, y: nat, k: Call)
    requires s.head < |s.commits| && y in s.calls && s.calls[y] == k && k.Releasing? && k.sent.None?
    requires DecideRelease(s.commits[s.head], k.receipt, k.result, k.now) == ReleaseBuild
    requires LeasePaths(k.receipt) <= s.commits[s.head].records.Keys
    ensures Step(s, Attempt(y, map[]))
            == s.(commits := s.commits + [Freed(s.head, s.commits[s.head], k.receipt, k.result, k.now)],
                  sent := s.sent + {|s.commits|},
                  calls := s.calls[y := Releasing(k.receipt, k.result, k.now, k.attempts, k.attempt, Some(|s.commits|))])
  { }

  lemma ReleaseSent(s: Sys, x: nat, q: Request, result: nat)
    requires s.commits == [Root(), First(x, q)] && s.head == 1 && Normal(q.paths) && HasAll(First(x, q), q.paths)
    requires x + 2 in s.calls && s.calls[x + 2] == Releasing(OtherReceipt(x, q), result, q.now, 1, 1, None) && Retries(s, x, q)
    ensures LeasePaths(OtherReceipt(x, q)) <= First(x, q).records.Keys
    ensures Sent(Step(s, Attempt(x + 2, map[])), Freed(1, First(x, q), OtherReceipt(x, q), result, q.now), x, q)
  {
    ReleaseBuilds(x, q, result);
    OtherPaths(x, q);
    SendsRelease(s, x + 2, s.calls[x + 2]);
  }

  /** The update that ends the lease is on its way. */
  predicate Sent(s: Sys, c: Commit, x: nat, q: Request) {
    && s.commits == [Root(), First(x, q), c] && s.head == 1 && c.parent == Some(1) && 2 in s.sent && Retries(s, x, q)
  }

  lemma EndDelivered(s: Sys, c: Commit, x: nat, q: Request)
    requires Sent(s, c, x, q) && Decide(c, q) == Build
    ensures Over(Step(s, Deliver(2)), x, q)
  {
    assert s.commits[2] == c;
    assert Anc(s.commits, 1, 2);
  }

  /** The lease of the first try is over, and its record the one before the second try. */
  predicate Over(s: Sys, x: nat, q: Request) {
    && s.head == 2 && |s.commits| == 3 && s.commits[..2] == [Root(), First(x, q)] && s.commits[2].parent == Some(1)
    && Retries(s, x, q) && Decide(s.commits[2], q) == Build
  }

  lemma EndByRelease(s: Sys, x: nat, q: Request) returns (t: Sys)
    requires Run(s, q) && Landed(s, x, q) && Normal(q.paths) && q.ttl > 0
    ensures Run(t, q) && Over(t, x, q)
  {
    t := SecondReceipt(s, x, q);
    var result := q.predecessor + 1;
    t := Onward(t, MoveTarget(q.target, result), q);
    t := Onward(t, BeginRelease(x + 2, OtherReceipt(x, q), result, q.now, 1), q);
    ReleaseSent(t, x, q, result);
    var c := Freed(1, First(x, q), OtherReceipt(x, q), result, q.now);
    ReleasedEnds(x, q, result);
    t := Onward(t, Attempt(x + 2, map[]), q);
    EndDelivered(t, c, x, q);
    t := Onward(t, Deliver(2), q);
  }

  // ---- A take-over ----

  /** Somebody else, at the very moment when the lease expires, for as long as it takes to be expired at the request. */
  function Rival(q: Request): Request {
    q.(holder := q.holder.(workstream := q.holder.workstream + 1), now := q.now + q.ttl, ttl := -q.ttl, attempts := 1)
  }

  lemma TakeoverBuilds(x: nat, q: Request)
    requires Normal(q.paths) && q.ttl <= 0
    ensures Decide(First(x, q), Rival(q)) == Build && Decide(Taken(1, First(x, q), x + 1, Rival(q), map[]), q) == Build
  {
    var c := Taken(1, First(x, q), x + 1, Rival(q), map[]);
    FirstBuild(x, q);
    BuildsExactly(First(x, q), Rival(q));
    forall p | p in q.paths ensures Find(c, p) == Some(HeldRecord(Some(HeldRecord(None, p, q, 0)), p, Rival(q), 0)) {
      assert p in c.records;
    }
    BuildsExactly(c, q);
  }

  lemma TakeoverSent(s: Sys, x: nat, q: Request)
    requires s.commits == [Root(), First(x, q)] && s.head == 1 && Retries(s, x, q) && Decide(First(x, q), Rival(q)) == Build
    requires x + 1 in s.calls && s.calls[x + 1] == Acquiring(Rival(q), 1, None)
    ensures Sent(Step(s, Attempt(x + 1, map[])), Taken(1, First(x, q), x + 1, Rival(q), map[]), x, q)
  { }

  lemma EndByTakeover(s: Sys, x: nat, q: Request) returns (t: Sys)
    requires Run(s, q) && Landed(s, x, q) && Normal(q.paths) && q.ttl <= 0
    ensures Run(t, q) && Over(t, x, q)
  {
    var c := Taken(1, First(x, q), x + 1, Rival(q), map[]);
    TakeoverBuilds(x, q);
    t := Onward(s, BeginAcquire(x + 1, Rival(q)), q);
    TakeoverSent(t, x, q);
    t := Onward(t, Attempt(x + 1, map[]), q);
    EndDelivered(t, c, x, q);
    t := Onward(t, Deliver(2), q);
  }

  // ---- The second try ----

  /** Both commits of the call are in the history of the head. */
  predicate Twice(s: Sys, x: nat, q: Request) {
    && |s.commits| == 4 && s.head == 3 && s.commits[1] == First(x, q) && Anc(s.commits, 1, 2) && Anc(s.commits, 1, 3)
    && s.commits[3].cause == Acquires(x, q) && s.commits[3].parent == Some(2)
  }

  /** The commit of the second try has been sent. */
  predicate Resent(s: Sys, x: nat, q: Request) {
    && |s.commits| == 4 && s.head == 2 && 3 in s.sent && s.commits[1] == First(x, q) && s.commits[2].parent == Some(1)
    && s.commits[3].cause == Acquires(x, q) && s.commits[3].parent == Some(2)
  }

  lemma BuiltAgain(s: Sys, x: nat, q: Request)
    requires Over(s, x, q)
    ensures Resent(Step(s, Attempt(x, map[])), x, q)
  {
    var t := Step(s, Attempt(x, map[]));
    assert t.commits[2] == s.commits[2] && t.commits[1] == s.commits[..2][1];
  }

  lemma ResentDelivered(s: Sys, x: nat, q: Request)
    requires Resent(s, x, q)
    ensures Twice(Step(s, Deliver(3)), x, q)
  { assert Anc(s.commits, 1, 2) && Anc(s.commits, 2, 3); }

  lemma TriedAgain(s: Sys, x: nat, q: Request) returns (t: Sys)
    requires Run(s, q) && Over(s, x, q)
    ensures Run(t, q) && Twice(t, x, q)
  {
    BuiltAgain(s, x, q);
    t := Onward(s, Attempt(x, map[]), q);
    ResentDelivered(t, x, q);
    t := Onward(t, Deliver(3), q);
  }

  lemma TwiceRaised(s: Sys, x: nat, q: Request)
    requires SysOk(s) && Twice(s, x, q) && Normal(q.paths)
    ensures forall p :: p in q.paths ==>
              && Find(s.commits[1], p).Some? && Find(s.commits[3], p).Some?
              && Find(s.commits[1], p).value.epoch < Find(s.commits[3], p).value.epoch
  {
    FirstBuild(x, q);
    assert CommitOk(s.commits, 3);
    forall p | p in q.paths
      ensures Find(s.commits[3], p).Some? && Find(s.commits[1], p).value.epoch < Find(s.commits[3], p).value.epoch
    {
      assert Find(s.commits[3], p).Some?;
      RankAlong(s.commits, 1, 2, p);
    }
  }

  /** Two commits of one call in the history of the head, the second with higher epochs. */
  lemma EpochRaisedTwice(x: nat, q: Request) returns (s: Sys, i: CommitId, j: CommitId)
    requires Normal(q.paths) && q.attempts >= 2
    ensures Reachable(s) && i < j < |s.commits| && Anc(s.commits, i, s.head) && Anc(s.commits, j, s.head)
    ensures s.commits[i].cause == Acquires(x, q) && s.commits[j].cause == Acquires(x, q)
    ensures forall p :: p in q.paths ==>
              && Find(s.commits[i], p).Some? && Find(s.commits[j], p).Some?
              && Find(s.commits[i], p).value.epoch < Find(s.commits[j], p).value.epoch
  {
    s := LateUpdate(x, q);
    if q.ttl > 0 { s := EndByRelease(s, x, q); } else { s := EndByTakeover(s, x, q); }
    s := TriedAgain(s, x, q);
    assert Reachable(s);
    ReachableOk(s);
    TwiceRaised(s, x, q);
    i, j := 1, 3;
  }
}
