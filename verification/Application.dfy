/** Applying committed entries, and restarting from disk, keep the invariants. */
module Application {
  import opened Types
  import opened StateMachine
  import opened NodeSpec
  import opened Cluster
  import opened History
  import opened Growth
  import opened Elections
  import opened Replication

  // ----- applying -----

  ghost function ApplyHistory(h: History, n: Node): History {
    if n.lastApplied < n.commitIdx && n.lastApplied == Applied(h, n.id) then
      h.(applied := h.applied[n.id := n.lastApplied + 1])
    else h
  }

  lemma ApplyHistoryGrows(w: World, h: History, n: Node)
    requires HistoryOk(w, h)
    ensures Grows(h, ApplyHistory(h, n)) && HistoryOk(w, ApplyHistory(h, n))
  {
    HistoryGrows(w, h, ApplyHistory(h, n));
  }

  /** In the run layer every entry is plain, so that applying one only executes it on the store. */
  lemma ApplyExecutes(n: Node)
    requires n.lastSnapshotIndex == 0 && n.lastApplied < n.commitIdx <= |n.log| && Plain(n.log[n.lastApplied])
    requires n.disk.store == n.store
    ensures ApplyNext(n) == SetStore(n.(lastApplied := n.lastApplied + 1), Execute(n.log[n.lastApplied], n.store))
  {
  }

  lemma AppliedStore(h: History, n: Node)
    requires StoreOk(h, n) && n.lastApplied < n.commitIdx <= Stable(h, n.id) && n.commitIdx <= |n.log|
    ensures StoreOk(ApplyHistory(h, n),
                    SetStore(n.(lastApplied := n.lastApplied + 1), Execute(n.log[n.lastApplied], n.store)))
  {
    var k := n.lastApplied;
    var most := Applied(h, n.id);
    FoldNext(n.log, k, map[]);
    if k == most {
      assert n.log[k..most] == [];
      SameEverywhere(n.store, Fold(n.log[..k], map[]));
    } else {
      DifferencesShrinkByOne(n.log[k..most], n.store, Fold(n.log[..k], map[]));
      assert n.log[k..most][1..] == n.log[k + 1..most];
    }
  }

  lemma ApplyOfOthers(h: History, requests: set<VoteRequest>, n: Node, other: Node)
    requires Grows(h, ApplyHistory(h, n)) && other.id != n.id
    ensures Uninvolved(h, ApplyHistory(h, n), requests, requests, other)
  {
  }

  lemma AppliedNodeOk(w: World, h: History, requests: set<VoteRequest>, n: Node)
    requires WellFormed(w) && HistoryOk(w, h) && NodeOk(w, h, requests, n) && n.lastApplied < n.commitIdx
    ensures ApplyNext(n).id == n.id && NodeOk(w, ApplyHistory(h, n), requests, ApplyNext(n))
  {
    var h' := ApplyHistory(h, n);
    ApplyHistoryGrows(w, h, n);
    CanonicalEntries(w, h, n.log, n.lastApplied);
    ApplyExecutes(n);
    FrameWithTallies(w, h, h', requests, n);
    FrameOfSame(w, h', requests, n, ApplyNext(n));
    CommittedGrows(w, h, h', n.log, Stable(h, n.id), n.currentTerm);
    AppliedStore(h, n);
  }

  lemma PutApplied(w: World, s: System, h: History, i: int, n': Node)
    requires Inv(w, s, h) && i in w.ids && n'.id == i && NodeOk(w, ApplyHistory(h, s.nodes[i]), s.requests, n')
    ensures Inv(w, Put(s, i, n'), ApplyHistory(h, s.nodes[i])) && Grows(h, ApplyHistory(h, s.nodes[i]))
  {
    ApplyHistoryGrows(w, h, s.nodes[i]);
    forall k | k in w.ids && k != i
      ensures Uninvolved(h, ApplyHistory(h, s.nodes[i]), s.requests, s.requests, s.nodes[k])
    {
      ApplyOfOthers(h, s.requests, s.nodes[i], s.nodes[k]);
    }
    PutKeepsInv(w, s, h, ApplyHistory(h, s.nodes[i]), i, n');
  }

  lemma ApplyNothing(s: System, i: int)
    requires i in s.nodes && s.nodes[i].lastApplied >= s.nodes[i].commitIdx
    ensures Put(s, i, ApplyNext(s.nodes[i])) == s
  {
    assert ApplyNext(s.nodes[i]) == s.nodes[i];
    PutSame(s, i);
  }

  lemma ApplyStep(w: World, s: System, h: History, i: int) returns (h': History)
    requires WellFormed(w) && Inv(w, s, h) && i in w.ids
    ensures Inv(w, Put(s, i, ApplyNext(s.nodes[i])), h') && Grows(h, h')
    ensures h'.applied == h.applied || h' == ApplyHistory(h, s.nodes[i])
  {
    if s.nodes[i].lastApplied < s.nodes[i].commitIdx {
      h' := ApplyHistory(h, s.nodes[i]);
      AppliedNodeOk(w, h, s.requests, s.nodes[i]);
      PutApplied(w, s, h, i, ApplyNext(s.nodes[i]));
    } else {
      h' := h;
      GrowsSame(h);
      ApplyNothing(s, i);
    }
  }

  // ----- restarting -----

  /** What a node that saved everything recovers: its term, vote, log and store, and nothing else. */
  lemma RecoversRecord(w: World, h: History, n: Node)
    requires HistoryOk(w, h) && RecordOk(w, h, n) && Durable(n)
    ensures var n' := Recover(n.id, w.ids - {n.id}, n.disk);
      && n'.id == n.id && n'.currentTerm == n.currentTerm && n'.votedFor == n.votedFor && n'.log == n.log
      && n'.role == Follower && n'.commitIdx == 0 && n'.lastApplied == 0
      && n'.store == n.store && n'.disk == n.disk && FixedOk(w, n')
  {
  }

  /** The store a node restarts with differs from an empty one only where its log will settle it. */
  lemma RestartedStore(h: History, n: Node, n': Node)
    requires StoreOk(h, n)
    requires n'.id == n.id && n'.log == n.log && n'.lastApplied == 0 && n'.store == n.store && n'.disk == n.disk
    ensures StoreOk(h, n')
  {
    var log := n.log[..Applied(h, n.id)];
    assert log[..n.lastApplied] == n.log[..n.lastApplied];
    assert log[n.lastApplied..] == n.log[n.lastApplied..Applied(h, n.id)];
    DifferencesFromStart(log, n.lastApplied, n.store, map[]);
    assert n.log[0..Applied(h, n.id)] == log && n.log[..0] == [];
  }

  lemma RestartedNodeOk(w: World, h: History, requests: set<VoteRequest>, n: Node)
    requires HistoryOk(w, h) && NodeOk(w, h, requests, n) && Durable(n)
    ensures NodeOk(w, h, requests, Recover(n.id, w.ids - {n.id}, n.disk))
  {
    RecoversRecord(w, h, n);
    RestartedStore(h, n, Recover(n.id, w.ids - {n.id}, n.disk));
  }

  lemma RestartStep(w: World, s: System, h: History, i: int)
    requires Inv(w, s, h) && i in w.ids && Durable(s.nodes[i])
    ensures Inv(w, Put(s, i, Recover(i, w.ids - {i}, s.nodes[i].disk)), h)
  {
    RestartedNodeOk(w, h, s.requests, s.nodes[i]);
    PutKeepsInvSameHistory(w, s, h, i, Recover(i, w.ids - {i}, s.nodes[i].disk));
  }
}
