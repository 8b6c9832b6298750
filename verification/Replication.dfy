/** Replication steps keep the invariants. */
module Replication {
  import opened Types
  import opened Sets
  import opened StateMachine
  import opened NodeSpec
  import opened Cluster
  import opened History
  import opened Safety
  import opened Growth
  import opened Elections
  import Commands

  // ----- what a leader ships -----

  /** `m` is the part of `log` from `m.prevLogIndex` to the end, with the true preceding term. */
  ghost predicate IsWindow(log: seq<Entry>, m: AppendArgs) {
    && 0 < m.prevLogIndex <= |log|
    && m.prevLogTerm == log[m.prevLogIndex - 1].term
    && m.entries == log[m.prevLogIndex..]
  }

  /** Own-term shipping: a leader ships the window of its log behind its election, and only entries of its term. */
  lemma ShipsOwnTerm(w: World, h: History, n: Node, j: int)
    requires w.prefix != [] && HistoryOk(w, h) && RecordOk(w, h, n) && n.role == Leader && j in n.peers
    ensures Outbound(n, j) == SendAppend(WindowFrom(n, n.nextIndex[j]))
    ensures IsWindow(n.log, WindowFrom(n, n.nextIndex[j]))
    ensures h.leaders[n.currentTerm].electedLen <= n.nextIndex[j] - 1
    ensures forall e :: e in WindowFrom(n, n.nextIndex[j]).entries ==> e.term == n.currentTerm
  {
    assert TracksPeer(h, n, j);
    assert LeadershipOk(w, h, n.currentTerm);
    var m := WindowFrom(n, n.nextIndex[j]);
    var l := h.leaders[n.currentTerm];
    forall e | e in m.entries ensures e.term == n.currentTerm {
      var p :| 0 <= p < |m.entries| && m.entries[p] == e;
      assert e == l.log[m.prevLogIndex + p];
    }
  }

  // ----- a follower takes it -----

  ghost function AddAck(h: History, j: int, t: nat): History
    requires t in h.leaders
  {
    h.(acked := h.acked[(j, t) := |h.leaders[t].log|])
  }

  lemma AddAckGrows(h: History, j: int, t: nat)
    requires t in h.leaders && AckOk(h, j, t)
    ensures Grows(h, AddAck(h, j, t))
    ensures Acked(AddAck(h, j, t), j, t) == |h.leaders[t].log|
    ensures forall id: int, u: nat :: (id, u) != (j, t) ==> Acked(AddAck(h, j, t), id, u) == Acked(h, id, u)
  {
  }

  /** The follower `f`, now in the leader's term, agrees with the leader's log up to the window. */
  ghost predicate Matches(h: History, f: Node, m: AppendArgs) {
    && m.term in h.leaders && f.currentTerm == m.term && f.role == Follower
    && IsWindow(h.leaders[m.term].log, m)
    && h.leaders[m.term].electedLen <= m.prevLogIndex <= |f.log|
    && f.log[..m.prevLogIndex] == h.leaders[m.term].log[..m.prevLogIndex]
  }

  /** An accepted window makes the follower's log the leader's log, and an empty one leaves it as it is. */
  lemma SplicedLog(h: History, f: Node, m: AppendArgs)
    requires Matches(h, f, m) && f.lastSnapshotIndex == 0
    ensures m.entries != [] ==> Splice(f, m).log == h.leaders[m.term].log
    ensures m.entries == [] ==> Splice(f, m) == f && m.prevLogIndex == |h.leaders[m.term].log|
    ensures |h.leaders[m.term].log| <= |Splice(f, m).log|
    ensures Splice(f, m).log[..|h.leaders[m.term].log|] == h.leaders[m.term].log
  {
    var log := h.leaders[m.term].log;
    assert log == log[..m.prevLogIndex] + log[m.prevLogIndex..];
    if m.entries == [] { assert log[..m.prevLogIndex] == log; }
  }

  lemma AckedWithWindow(w: World, h: History, f: Node, m: AppendArgs)
    requires HistoryOk(w, h) && AcksOk(w, h, f) && Matches(h, f, m)
    ensures AckedInOwnTerm(w, AddAck(h, f.id, m.term), f.id, h.leaders[m.term].log, |h.leaders[m.term].log|)
  {
    var h' := AddAck(h, f.id, m.term);
    var log := h.leaders[m.term].log;
    AddAckGrows(h, f.id, m.term);
    assert LeadershipOk(w, h, m.term);
    forall p: nat | |w.prefix| <= p < |log| ensures Acked(h', f.id, log[p].term) >= p + 1 {
      if p < h.leaders[m.term].electedLen {
        assert log[p] == log[..m.prevLogIndex][p] == f.log[p];
        assert Acked(h, f.id, f.log[p].term) >= p + 1;
      }
    }
  }

  lemma HistoryWithAck(w: World, h: History, f: Node, m: AppendArgs)
    requires HistoryOk(w, h) && AcksOk(w, h, f) && VoterOk(h, f) && Matches(h, f, m)
    ensures HistoryOk(w, AddAck(h, f.id, m.term)) && Grows(h, AddAck(h, f.id, m.term))
  {
    var h' := AddAck(h, f.id, m.term);
    AddAckGrows(h, f.id, m.term);
    AckedWithWindow(w, h, f, m);
    assert LeadershipOk(w, h, m.term);
    HistoryGrows(w, h, h');
  }

  /** A follower that takes the leader's log keeps what it has acknowledged, or the leader came without it. */
  lemma KeptInLeadersLog(w: World, h: History, id: int, t: nat)
    requires HistoryOk(w, h) && t in h.leaders
    ensures Kept(h, id, h.leaders[t].log, t + 1)
  {
    assert LeadershipOk(w, h, t);
    forall u: nat, k: nat | u < t + 1 && u in h.leaders && k <= Acked(h, id, u)
      ensures Pre(h, u, k) <= h.leaders[t].log || Overwritten(h, u, k, t + 1)
    {
      if u < t && !(Pre(h, u, k) <= h.leaders[t].log) {
        assert !(Pre(h, u, k) <= Elected(h, t));
        assert u < t < t + 1;
      }
    }
  }

  lemma KeptWithHeartbeat(w: World, h: History, f: Node, m: AppendArgs)
    requires HistoryOk(w, h) && AcksOk(w, h, f) && Matches(h, f, m) && m.entries == []
    ensures Kept(AddAck(h, f.id, m.term), f.id, f.log, m.term + 1)
  {
    var h' := AddAck(h, f.id, m.term);
    var log := h.leaders[m.term].log;
    AddAckGrows(h, f.id, m.term);
    assert |log| == m.prevLogIndex;
    forall u: nat, k: nat | u < m.term + 1 && u in h'.leaders && k <= Acked(h', f.id, u)
      ensures Pre(h', u, k) <= f.log || Overwritten(h', u, k, m.term + 1)
    {
      if u < m.term {
        assert Pre(h, u, k) <= f.log || Overwritten(h, u, k, m.term + 1);
        assert Pre(h', u, k) == Pre(h, u, k);
        if Overwritten(h, u, k, m.term + 1) {
          var x: nat :| u < x < m.term + 1 && x in h.leaders && !(Pre(h, u, k) <= Elected(h, x));
          assert Elected(h', x) == Elected(h, x);
        }
      } else {
        assert Pre(h', u, k) == log[..k] == f.log[..m.prevLogIndex][..k];
      }
    }
  }

  lemma SplicedOwnTerms(w: World, h: History, f: Node, m: AppendArgs)
    requires HistoryOk(w, h) && AcksOk(w, h, f) && Matches(h, f, m) && f.lastSnapshotIndex == 0
    ensures AckedInOwnTerm(w, AddAck(h, f.id, m.term), f.id, Splice(f, m).log, |Splice(f, m).log|)
  {
    AddAckGrows(h, f.id, m.term);
    if m.entries == [] {
      assert AckedInOwnTerm(w, h, f.id, f.log, |f.log|);
    } else {
      SplicedLog(h, f, m);
      AckedWithWindow(w, h, f, m);
    }
  }

  lemma SplicedKept(w: World, h: History, f: Node, m: AppendArgs)
    requires HistoryOk(w, h) && AcksOk(w, h, f) && VoterOk(h, f) && Matches(h, f, m) && f.lastSnapshotIndex == 0
    ensures Kept(AddAck(h, f.id, m.term), f.id, Splice(f, m).log, m.term + 1)
  {
    if m.entries == [] {
      KeptWithHeartbeat(w, h, f, m);
    } else {
      SplicedLog(h, f, m);
      HistoryWithAck(w, h, f, m);
      KeptInLeadersLog(w, AddAck(h, f.id, m.term), f.id, m.term);
    }
  }

  lemma SplicedAcks(w: World, h: History, f: Node, m: AppendArgs)
    requires HistoryOk(w, h) && AcksOk(w, h, f) && VoterOk(h, f) && Matches(h, f, m) && f.lastSnapshotIndex == 0
    ensures AcksOk(w, AddAck(h, f.id, m.term), Splice(f, m))
  {
    AddAckGrows(h, f.id, m.term);
    SplicedOwnTerms(w, h, f, m);
    SplicedKept(w, h, f, m);
  }

  /** Committed entries survive a splice: the leader has them. */
  lemma SplicedCommit(w: World, h: History, f: Node, m: AppendArgs)
    requires WellFormed(w) && HistoryOk(w, h) && FixedOk(w, f) && CommitOk(w, h, f) && Matches(h, f, m)
    ensures CommitOk(w, h, Splice(f, m))
    ensures f.log[..Stable(h, f.id)] == Splice(f, m).log[..Stable(h, f.id)]
  {
    SplicedLog(h, f, m);
    CommittedIsInLeader(w, h, f.log, Stable(h, f.id), f.currentTerm, m.term);
    CommittedShrinks(w, h, f.log, Stable(h, f.id), f.currentTerm,
                     Splice(f, m).log, Stable(h, f.id), f.currentTerm);
  }

  /** Logs that agree on what was applied give the same store. */
  lemma StoreFollowsLog(h: History, n: Node, n': Node)
    requires StoreOk(h, n) && Stable(h, n.id) <= |n.log| && Stable(h, n.id) <= |n'.log|
    requires n.log[..Stable(h, n.id)] == n'.log[..Stable(h, n.id)]
    requires n'.id == n.id && n'.lastApplied == n.lastApplied && n'.store == n.store && n'.disk.store == n.disk.store
    ensures StoreOk(h, n')
  {
    var k := Stable(h, n.id);
    var most := Applied(h, n.id);
    assert n.log[n.lastApplied..most] == n.log[..k][n.lastApplied..most];
    assert n'.log[n.lastApplied..most] == n'.log[..k][n.lastApplied..most];
    assert n.log[..n.lastApplied] == n.log[..k][..n.lastApplied];
    assert n'.log[..n.lastApplied] == n'.log[..k][..n.lastApplied];
  }

  lemma SplicedRecord(w: World, h: History, f: Node, m: AppendArgs)
    requires WellFormed(w) && HistoryOk(w, h) && RecordOk(w, h, f) && VoterOk(h, f) && Matches(h, f, m)
    ensures RecordOk(w, AddAck(h, f.id, m.term), Splice(f, m))
  {
    var h' := AddAck(h, f.id, m.term);
    var f' := Splice(f, m);
    SplicedLog(h, f, m);
    AddAckGrows(h, f.id, m.term);
    assert LeadershipOk(w, h, m.term);
    CanonicalGrows(w, h, h', f'.log);
    SplicedAcks(w, h, f, m);
    SplicedCommit(w, h, f, m);
    CommittedGrows(w, h, h', f'.log, Stable(h, f.id), f'.currentTerm);
    StoreFollowsLog(h, f, f');
  }

  lemma SplicedNodeOk(w: World, h: History, requests: set<VoteRequest>, f: Node, m: AppendArgs)
    requires WellFormed(w) && HistoryOk(w, h) && NodeOk(w, h, requests, f) && Matches(h, f, m)
    ensures var h' := AddAck(h, f.id, m.term);
      HistoryOk(w, h') && Grows(h, h') && NodeOk(w, h', requests, Splice(f, m))
  {
    SplicedRecord(w, h, f, m);
    HistoryWithAck(w, h, f, m);
  }

  // ----- a commit index rises -----

  ghost function RaiseStable(h: History, id: int, k: nat): History {
    h.(stable := h.stable[id := if k > Stable(h, id) then k else Stable(h, id)])
  }

  lemma RaiseStableGrows(w: World, h: History, id: int, k: nat)
    requires HistoryOk(w, h)
    ensures Grows(h, RaiseStable(h, id, k)) && HistoryOk(w, RaiseStable(h, id, k))
  {
    HistoryGrows(w, h, RaiseStable(h, id, k));
  }

  /** Two histories that differ only in what nodes have committed and applied. */
  ghost predicate SameButTallies(h: History, h': History) {
    h' == h.(stable := h'.stable, applied := h'.applied)
  }

  /** The parts of a node's invariants that do not depend on what it has committed and applied. */
  ghost predicate FrameOk(w: World, h: History, requests: set<VoteRequest>, n: Node) {
    && FixedOk(w, n) && Canonical(w, h, n.log) && AcksOk(w, h, n) && LeaderOk(w, h, n)
    && VoterOk(h, n) && CandidateOk(h, requests, n)
  }

  lemma AcksWithTallies(w: World, h: History, h': History, n: Node)
    requires HistoryOk(w, h) && AcksOk(w, h, n) && Grows(h, h') && SameButTallies(h, h')
    ensures AcksOk(w, h', n)
  {
    KeptGrows(w, h, h', n.id, n.log, n.currentTerm + 1);
  }

  lemma FrameWithTallies(w: World, h: History, h': History, requests: set<VoteRequest>, n: Node)
    requires HistoryOk(w, h) && FrameOk(w, h, requests, n) && Grows(h, h') && SameButTallies(h, h')
    ensures FrameOk(w, h', requests, n)
  {
    CanonicalGrows(w, h, h', n.log);
    AcksWithTallies(w, h, h', n);
  }

  lemma FrameOfSame(w: World, h: History, requests: set<VoteRequest>, n: Node, n': Node)
    requires FrameOk(w, h, requests, n)
    requires n' == n.(commitIdx := n'.commitIdx, lastApplied := n'.lastApplied, store := n'.store, disk := n'.disk)
    requires n'.disk.snapshot == n.disk.snapshot
    ensures FrameOk(w, h, requests, n')
  {
    if n.role == Leader {
      forall j | j in n'.peers ensures TracksPeer(h, n', j) {
        assert TracksPeer(h, n, j);
      }
    }
  }

  lemma CommitRaised(w: World, h: History, n: Node, k: nat)
    requires HistoryOk(w, h) && CommitOk(w, h, n) && StoreOk(h, n)
    requires n.commitIdx <= k <= |n.log| && Committed(w, h, n.log, k, n.currentTerm)
    ensures CommitOk(w, RaiseStable(h, n.id, k), n.(commitIdx := k))
          && StoreOk(RaiseStable(h, n.id, k), n.(commitIdx := k))
  {
    var h' := RaiseStable(h, n.id, k);
    RaiseStableGrows(w, h, n.id, k);
    CommittedGrows(w, h, h', n.log, k, n.currentTerm);
    CommittedGrows(w, h, h', n.log, Stable(h, n.id), n.currentTerm);
  }

  lemma RaisedCommit(w: World, h: History, requests: set<VoteRequest>, n: Node, k: nat)
    requires HistoryOk(w, h) && NodeOk(w, h, requests, n)
    requires n.commitIdx <= k <= |n.log| && Committed(w, h, n.log, k, n.currentTerm)
    ensures var h' := RaiseStable(h, n.id, k);
      HistoryOk(w, h') && Grows(h, h') && NodeOk(w, h', requests, n.(commitIdx := k))
  {
    var h' := RaiseStable(h, n.id, k);
    RaiseStableGrows(w, h, n.id, k);
    FrameWithTallies(w, h, h', requests, n);
    FrameOfSame(w, h', requests, n, n.(commitIdx := k));
    CommitRaised(w, h, n, k);
  }

  /** The histories differ at most in the highest commit index of node `k`. */
  ghost predicate RaisesOnly(h: History, h': History, k: int) {
    h' == h.(stable := h'.stable) && forall id: int :: id != k ==> Stable(h', id) == Stable(h, id)
  }

  lemma RaisedOfOthers(h: History, h': History, requests: set<VoteRequest>, k: int, other: Node)
    requires RaisesOnly(h, h', k) && Grows(h, h') && other.id != k
    ensures Uninvolved(h, h', requests, requests, other)
  {
  }

  lemma PutRaised(w: World, s: System, h: History, h': History, k: int, n: Node)
    requires Inv(w, s, h) && k in w.ids && RaisesOnly(h, h', k) && HistoryOk(w, h') && Grows(h, h')
    requires n.id == k && NodeOk(w, h', s.requests, n)
    ensures Inv(w, Put(s, k, n), h') && h'.applied == h.applied
  {
    forall i | i in w.ids && i != k ensures Uninvolved(h, h', s.requests, s.requests, s.nodes[i]) {
      RaisedOfOthers(h, h', s.requests, k, s.nodes[i]);
    }
    PutKeepsInv(w, s, h, h', k, n);
  }

  // ----- a whole append at a follower -----

  /** Whoever accepts an append agrees with the sender's log up to the preceding entry. */
  lemma AcceptedAgrees(w: World, h: History, f: Node, m: AppendArgs, log: seq<Entry>)
    requires HistoryOk(w, h) && FixedOk(w, f) && Canonical(w, h, f.log) && Canonical(w, h, log)
    requires 0 < m.prevLogIndex <= |log| && m.prevLogTerm == log[m.prevLogIndex - 1].term
    requires AppendEntries(f, m).1
    ensures f.currentTerm <= m.term
    ensures m.prevLogIndex <= |f.log| && f.log[..m.prevLogIndex] == log[..m.prevLogIndex]
  {
    LogMatching(w, h, f.log, log, m.prevLogIndex - 1);
  }

  /** A leader's window that follower `f` accepts continues entries that both hold alike. */
  lemma AcceptedMatches(w: World, h: History, f: Node, m: AppendArgs)
    requires HistoryOk(w, h) && FixedOk(w, f) && Canonical(w, h, f.log)
    requires m.term in h.leaders && IsWindow(h.leaders[m.term].log, m)
    requires h.leaders[m.term].electedLen <= m.prevLogIndex
    requires AppendEntries(f, m).1
    ensures Matches(h, ObserveLeader(f, m.term, m.leaderId), m)
  {
    assert LeadershipOk(w, h, m.term);
    AcceptedAgrees(w, h, f, m, h.leaders[m.term].log);
  }

  /** The history after `f` has followed the commit index `c`. */
  ghost function FollowHistory(h: History, f: Node, c: int): History {
    if c > f.commitIdx then RaiseStable(h, f.id, c) else h
  }

  /** The history after follower `f`, already in the leader's term, has taken a window. */
  ghost function AppendHistory(h: History, f: Node, m: AppendArgs): History
    requires m.term in h.leaders
  {
    FollowHistory(AddAck(h, f.id, m.term), f, m.leaderCommit)
  }

  /** What a leader has committed is committed in a log that starts with the leader's. */
  lemma CommittedInFollower(w: World, h: History, log: seq<Entry>, c: nat, hi: nat, log': seq<Entry>)
    requires c <= |log| <= |log'| && log'[..|log|] == log && Committed(w, h, log, c, hi)
    ensures Committed(w, h, log', c, hi)
  {
    assert log'[..c] == log'[..|log|][..c] == log[..c];
    CommittedShrinks(w, h, log, c, hi, log', c, hi);
  }

  /** Following a leader's commit index that the log covers. */
  lemma FollowedCommit(w: World, h: History, requests: set<VoteRequest>, f: Node, c: nat)
    requires HistoryOk(w, h) && NodeOk(w, h, requests, f)
    requires c <= |f.log| && Committed(w, h, f.log, c, f.currentTerm)
    ensures HistoryOk(w, FollowHistory(h, f, c)) && Grows(h, FollowHistory(h, f, c))
    ensures NodeOk(w, FollowHistory(h, f, c), requests, FollowCommit(f, c))
    ensures RaisesOnly(h, FollowHistory(h, f, c), f.id)
  {
    if c > f.commitIdx {
      RaisedCommit(w, h, requests, f, c);
      assert FollowCommit(f, c) == f.(commitIdx := c);
    } else {
      GrowsSame(h);
    }
  }

  lemma FollowKeepsAcks(h: History, f: Node, c: int, id: int, t: nat)
    ensures Acked(FollowHistory(h, f, c), id, t) == Acked(h, id, t)
  {
  }

  /** The leader's commitment is one of the follower's log after the splice. */
  lemma CommittedAfterSplice(w: World, h: History, f: Node, m: AppendArgs)
    requires HistoryOk(w, h) && RecordOk(w, h, f) && Matches(h, f, m)
    requires 0 <= m.leaderCommit <= |h.leaders[m.term].log|
    requires Committed(w, h, h.leaders[m.term].log, m.leaderCommit, m.term)
    ensures m.leaderCommit <= |Splice(f, m).log|
    ensures Committed(w, AddAck(h, f.id, m.term), Splice(f, m).log, m.leaderCommit, m.term)
  {
    SplicedLog(h, f, m);
    AddAckGrows(h, f.id, m.term);
    CommittedInFollower(w, h, h.leaders[m.term].log, m.leaderCommit, m.term, Splice(f, m).log);
    CommittedGrows(w, h, AddAck(h, f.id, m.term), Splice(f, m).log, m.leaderCommit, m.term);
  }

  lemma SpliceKeeps(f: Node, m: AppendArgs)
    ensures Splice(f, m).id == f.id && Splice(f, m).commitIdx == f.commitIdx
    ensures Splice(f, m).currentTerm == f.currentTerm
  {
  }

  lemma TakenWindow(w: World, h: History, requests: set<VoteRequest>, f: Node, m: AppendArgs) returns (h': History)
    requires WellFormed(w) && HistoryOk(w, h) && NodeOk(w, h, requests, f) && Matches(h, f, m)
    requires 0 <= m.leaderCommit <= |h.leaders[m.term].log|
    requires Committed(w, h, h.leaders[m.term].log, m.leaderCommit, m.term)
    ensures h' == AppendHistory(h, f, m)
    ensures HistoryOk(w, h') && Grows(h, h')
    ensures NodeOk(w, h', requests, FollowCommit(Splice(f, m), m.leaderCommit))
    ensures Acked(h', f.id, m.term) == |h.leaders[m.term].log|
  {
    var h1 := AddAck(h, f.id, m.term);
    var f1 := Splice(f, m);
    assert f1.id == f.id && f1.commitIdx == f.commitIdx && f1.currentTerm == m.term by { SpliceKeeps(f, m); }
    h' := FollowHistory(h1, f1, m.leaderCommit);
    assert Acked(h1, f.id, m.term) == |h.leaders[m.term].log|;
    FollowKeepsAcks(h1, f1, m.leaderCommit, f.id, m.term);
    SplicedNodeOk(w, h, requests, f, m);
    CommittedAfterSplice(w, h, f, m);
    FollowedCommit(w, h1, requests, f1, m.leaderCommit);
    GrowsTransitively(h, h1, h');
  }

  /** Following a leader's message, of the node's term or a later one. */
  lemma ObservesLeader(w: World, h: History, requests: set<VoteRequest>, f: Node, term: nat, leader: int)
    requires HistoryOk(w, h) && NodeOk(w, h, requests, f) && term >= f.currentTerm
    ensures NodeOk(w, h, requests, ObserveLeader(f, term, leader))
  {
    StepsDown(w, h, requests, f, ObserveLeader(f, term, leader));
  }

  lemma AppendOfOthers(h: History, requests: set<VoteRequest>, f: Node, m: AppendArgs, other: Node)
    requires m.term in h.leaders && Grows(h, AppendHistory(h, f, m)) && other.id != f.id
    ensures Uninvolved(h, AppendHistory(h, f, m), requests, requests, other)
  {
  }

  /** An append that is refused changes at most the follower's term and role. */
  lemma RefusedAppend(w: World, s: System, h: History, j: int, m: AppendArgs)
    requires Inv(w, s, h) && j in w.ids && !AppendEntries(s.nodes[j], m).1
    ensures Inv(w, Put(s, j, AppendEntries(s.nodes[j], m).0), h)
  {
    if m.term >= s.nodes[j].currentTerm { ObservesLeader(w, h, s.requests, s.nodes[j], m.term, m.leaderId); }
    PutKeepsInvSameHistory(w, s, h, j, AppendEntries(s.nodes[j], m).0);
  }

  /** The follower puts its new state down, and nobody else is concerned. */
  lemma PutTaken(w: World, s: System, h: History, j: int, f: Node, m: AppendArgs)
    requires Inv(w, s, h) && j in w.ids && f.id == j && Matches(h, f, m)
    requires HistoryOk(w, AppendHistory(h, f, m)) && Grows(h, AppendHistory(h, f, m))
    requires NodeOk(w, AppendHistory(h, f, m), s.requests, FollowCommit(Splice(f, m), m.leaderCommit))
    ensures Inv(w, Put(s, j, FollowCommit(Splice(f, m), m.leaderCommit)), AppendHistory(h, f, m))
  {
    var h' := AppendHistory(h, f, m);
    forall i | i in w.ids && i != j ensures Uninvolved(h, h', s.requests, s.requests, s.nodes[i]) {
      AppendOfOthers(h, s.requests, f, m, s.nodes[i]);
    }
    PutKeepsInv(w, s, h, h', j, FollowCommit(Splice(f, m), m.leaderCommit));
  }

  /** A window of a leader that `j` accepts. */
  lemma AcceptedAppend(w: World, s: System, h: History, j: int, m: AppendArgs) returns (h': History)
    requires WellFormed(w) && Inv(w, s, h) && j in w.ids && AppendEntries(s.nodes[j], m).1
    requires m.term in h.leaders && IsWindow(h.leaders[m.term].log, m)
    requires h.leaders[m.term].electedLen <= m.prevLogIndex
    requires 0 <= m.leaderCommit <= |h.leaders[m.term].log|
    requires Committed(w, h, h.leaders[m.term].log, m.leaderCommit, m.term)
    ensures Inv(w, Put(s, j, AppendEntries(s.nodes[j], m).0), h') && Grows(h, h') && h'.applied == h.applied
    ensures Acked(h', j, m.term) == |h.leaders[m.term].log|
    ensures h'.leaders == h.leaders
  {
    var f := ObserveLeader(s.nodes[j], m.term, m.leaderId);
    ObservesLeader(w, h, s.requests, s.nodes[j], m.term, m.leaderId);
    AcceptedMatches(w, h, s.nodes[j], m);
    h' := TakenWindow(w, h, s.requests, f, m);
    PutTaken(w, s, h, j, f, m);
  }

  // ----- the leader hears of it -----

  /** Own-term acknowledgments by a majority choose an entry, whatever its term. */
  lemma CanCommitChooses(w: World, h: History, n: Node, k: nat)
    requires FixedOk(w, n) && LeaderOk(w, h, n) && n.role == Leader
    requires 0 < k <= |n.log| && CanCommit(n, k, n.currentTerm)
    ensures Committed(w, h, n.log, k, n.currentTerm)
  {
    var holders := Holders(n, w.ids, k);
    forall f | f in holders + {n.id} ensures f in AckSet(w, h, n.currentTerm, k) {
      if f != n.id { assert TracksPeer(h, n, f); }
    }
    SubsetSize(holders + {n.id}, AckSet(w, h, n.currentTerm, k));
    assert ChosenPrefix(w, h, n.currentTerm, n.log, k);
  }

  ghost function AdvanceHistory(h: History, n: Node): History {
    if AdvanceCommit(n).commitIdx != n.commitIdx then RaiseStable(h, n.id, AdvanceCommit(n).commitIdx) else h
  }

  lemma AdvancedCommit(w: World, h: History, requests: set<VoteRequest>, n: Node)
    requires HistoryOk(w, h) && NodeOk(w, h, requests, n)
    ensures HistoryOk(w, AdvanceHistory(h, n)) && Grows(h, AdvanceHistory(h, n))
    ensures NodeOk(w, AdvanceHistory(h, n), requests, AdvanceCommit(n))
    ensures RaisesOnly(h, AdvanceHistory(h, n), n.id)
  {
    GrowsSame(h);
    if AdvanceCommit(n).commitIdx != n.commitIdx {
      var k := AdvanceCommit(n).commitIdx;
      CanCommitChooses(w, h, n, k);
      RaisedCommit(w, h, requests, n, k);
    }
  }

  lemma NotedNodeOk(w: World, h: History, requests: set<VoteRequest>, n: Node, j: int)
    requires HistoryOk(w, h) && NodeOk(w, h, requests, n) && n.role == Leader && j in n.peers
    requires Acked(h, j, n.currentTerm) == |n.log|
    ensures NodeOk(w, h, requests, Noted(n, j, |n.log|))
  {
    var n' := Noted(n, j, |n.log|);
    assert LeadershipOk(w, h, n.currentTerm);
    forall k | k in n'.peers ensures TracksPeer(h, n', k) {
      assert TracksPeer(h, n, k);
    }
  }

  lemma SettledIsAdvanced(n: Node, j: int)
    requires n.lastSnapshotIndex == 0
    ensures Settle(n, j, Reply(true, n.currentTerm)) == AdvanceCommit(Noted(n, j, |n.log|))
    ensures AdvanceCommit(Noted(n, j, |n.log|)).id == n.id
  {
  }

  lemma SettleStep(w: World, s: System, h: History, i: int, j: int) returns (h': History)
    requires Inv(w, s, h) && i in w.ids && s.nodes[i].role == Leader && j in s.nodes[i].peers
    requires Acked(h, j, s.nodes[i].currentTerm) == |s.nodes[i].log|
    ensures Inv(w, Put(s, i, Settle(s.nodes[i], j, Reply(true, s.nodes[i].currentTerm))), h')
    ensures Grows(h, h') && h'.applied == h.applied
  {
    var n := Noted(s.nodes[i], j, |s.nodes[i].log|);
    NotedNodeOk(w, h, s.requests, s.nodes[i], j);
    h' := AdvanceHistory(h, n);
    AdvancedCommit(w, h, s.requests, n);
    SettledIsAdvanced(s.nodes[i], j);
    PutRaised(w, s, h, h', i, AdvanceCommit(n));
  }

  // ----- the exchange as a whole -----

  /** A leader's window is one of its term, and what the leader has committed is in its log. */
  lemma LeadersWindow(w: World, h: History, n: Node, j: int)
    requires w.prefix != [] && HistoryOk(w, h) && RecordOk(w, h, n) && n.role == Leader && j in n.peers
    ensures var m := WindowFrom(n, n.nextIndex[j]);
      && Outbound(n, j) == SendAppend(m)
      && m.term == n.currentTerm && m.term in h.leaders && h.leaders[m.term].log == n.log
      && IsWindow(n.log, m) && h.leaders[m.term].electedLen <= m.prevLogIndex
      && 0 <= m.leaderCommit <= |n.log| && Committed(w, h, n.log, m.leaderCommit, m.term)
  {
    ShipsOwnTerm(w, h, n, j);
    CommittedShrinks(w, h, n.log, Stable(h, n.id), n.currentTerm, n.log, n.commitIdx, n.currentTerm);
  }

  /** An append that is accepted leaves the follower in the sender's term. */
  lemma AcceptedTerm(f: Node, m: AppendArgs)
    requires AppendEntries(f, m).1
    ensures AppendEntries(f, m).0.currentTerm == m.term
  {
  }

  /** The outcome that a leader sees is an error or success in its own term; a refusal never reaches it as a reply. */
  lemma DeliverStep(w: World, s: System, h: History, i: int, j: int) returns (h': History)
    requires WellFormed(w) && w.prefix != [] && Inv(w, s, h)
    requires i in w.ids && s.nodes[i].role == Leader && j in s.nodes[i].peers
    ensures Inv(w, Put(s, j, Deliver(s.nodes[i], s.nodes[j]).0), h') && Grows(h, h') && h'.applied == h.applied
    ensures var reply := Deliver(s.nodes[i], s.nodes[j]).1;
      || reply == NoReply
      || (reply == Reply(true, s.nodes[i].currentTerm)
          && Acked(h', j, s.nodes[i].currentTerm) == |s.nodes[i].log|)
  {
    var n := s.nodes[i];
    var m := WindowFrom(n, n.nextIndex[j]);
    LeadersWindow(w, h, n, j);
    GrowsSame(h);
    if AppendEntries(s.nodes[j], m).1 {
      AcceptedTerm(s.nodes[j], m);
      h' := AcceptedAppend(w, s, h, j, m);
    } else {
      h' := h;
      RefusedAppend(w, s, h, j, m);
    }
  }

  lemma NoAnswer(s: System, i: int, j: int)
    requires i in s.nodes
    ensures Put(s, i, Settle(s.nodes[i], j, NoReply)) == s
  {
    PutSame(s, i);
  }

  /** The leader hears an error, or that its whole log was taken. */
  lemma AnswerStep(w: World, s: System, h: History, i: int, j: int, reply: AppendReply) returns (h': History)
    requires Inv(w, s, h) && i in w.ids && s.nodes[i].role == Leader && j in s.nodes[i].peers
    requires reply == NoReply
          || (reply == Reply(true, s.nodes[i].currentTerm) && Acked(h, j, s.nodes[i].currentTerm) == |s.nodes[i].log|)
    ensures Inv(w, Put(s, i, Settle(s.nodes[i], j, reply)), h') && Grows(h, h') && h'.applied == h.applied
  {
    if reply == NoReply {
      h' := h;
      GrowsSame(h);
      NoAnswer(s, i, j);
    } else {
      h' := SettleStep(w, s, h, i, j);
    }
  }

  lemma ExchangeStep(w: World, s: System, h: History, i: int, j: int) returns (h': History)
    requires WellFormed(w) && w.prefix != [] && Inv(w, s, h)
    requires i in w.ids && s.nodes[i].role == Leader && j in s.nodes[i].peers
    ensures var (f, reply) := Deliver(s.nodes[i], s.nodes[j]);
      Inv(w, Put(Put(s, j, f), i, Settle(s.nodes[i], j, reply)), h')
    ensures Grows(h, h') && h'.applied == h.applied
  {
    var (f, reply) := Deliver(s.nodes[i], s.nodes[j]);
    var h1 := DeliverStep(w, s, h, i, j);
    h' := AnswerStep(w, Put(s, j, f), h1, i, j, reply);
    GrowsTransitively(h, h1, h');
  }

  /** What an accepted announcement says is committed is committed in the follower's log. */
  lemma AnnouncedCommit(w: World, h: History, f: Node, m: AppendArgs)
    requires HistoryOk(w, h) && FixedOk(w, f) && Canonical(w, h, f.log) && AnnouncementOk(w, h, m)
    requires AppendEntries(f, m).1
    ensures f.currentTerm <= m.term && m.leaderCommit <= |f.log| && Committed(w, h, f.log, m.leaderCommit, m.term)
  {
    var log := h.leaders[m.term].log;
    assert LeadershipOk(w, h, m.term);
    AcceptedAgrees(w, h, f, m, log);
    assert f.log[..m.leaderCommit] == f.log[..m.prevLogIndex][..m.leaderCommit] == log[..m.leaderCommit];
    CommittedShrinks(w, h, log, m.leaderCommit, m.term, f.log, m.leaderCommit, m.term);
  }

  lemma AcceptedHeartbeat(f: Node, m: AppendArgs)
    requires AppendEntries(f, m).1 && m.entries == []
    ensures AppendEntries(f, m).0 == FollowCommit(ObserveLeader(f, m.term, m.leaderId), m.leaderCommit)
    ensures AppendEntries(f, m).0.id == f.id && f.currentTerm <= m.term
  {
  }

  lemma AcceptedAnnouncement(w: World, s: System, h: History, j: int, m: AppendArgs) returns (h': History)
    requires WellFormed(w) && Inv(w, s, h) && j in w.ids && AnnouncementOk(w, h, m) && AppendEntries(s.nodes[j], m).1
    ensures Inv(w, Put(s, j, AppendEntries(s.nodes[j], m).0), h') && Grows(h, h') && h'.applied == h.applied
  {
    var f := ObserveLeader(s.nodes[j], m.term, m.leaderId);
    AcceptedHeartbeat(s.nodes[j], m);
    AnnouncedCommit(w, h, s.nodes[j], m);
    ObservesLeader(w, h, s.requests, s.nodes[j], m.term, m.leaderId);
    FollowedCommit(w, h, s.requests, f, m.leaderCommit);
    h' := FollowHistory(h, f, m.leaderCommit);
    PutRaised(w, s, h, h', j, FollowCommit(f, m.leaderCommit));
  }

  lemma AnnouncedStep(w: World, s: System, h: History, j: int, m: AppendArgs) returns (h': History)
    requires WellFormed(w) && Inv(w, s, h) && j in w.ids && m in s.announcements
    ensures Inv(w, Put(s, j, AppendEntries(s.nodes[j], m).0), h') && Grows(h, h') && h'.applied == h.applied
  {
    assert AnnouncementOk(w, h, m);
    if AppendEntries(s.nodes[j], m).1 {
      h' := AcceptedAnnouncement(w, s, h, j, m);
    } else {
      h' := h;
      GrowsSame(h);
      RefusedAppend(w, s, h, j, m);
    }
  }

  // ----- a leader's own log grows -----

  ghost function AddEntry(h: History, n: Node, e: Entry): History
    requires n.currentTerm in h.leaders
  {
    h.(leaders := h.leaders[n.currentTerm := h.leaders[n.currentTerm].(log := n.log + [e])],
       acked := h.acked[(n.id, n.currentTerm) := |n.log| + 1])
  }

  lemma AddEntryGrows(w: World, h: History, n: Node, e: Entry)
    requires FixedOk(w, n) && LeaderOk(w, h, n) && n.role == Leader
    ensures Grows(h, AddEntry(h, n, e))
    ensures Acked(AddEntry(h, n, e), n.id, n.currentTerm) == |n.log| + 1
    ensures forall id: int, t: nat :: (id, t) != (n.id, n.currentTerm) ==>
              Acked(AddEntry(h, n, e), id, t) == Acked(h, id, t)
  {
  }

  lemma LongerLogCanonical(w: World, h: History, n: Node, e: Entry)
    requires HistoryOk(w, h) && RecordOk(w, h, n) && n.role == Leader && e.term == n.currentTerm
    ensures Canonical(w, AddEntry(h, n, e), n.log + [e])
  {
    var h' := AddEntry(h, n, e);
    var log' := n.log + [e];
    AddEntryGrows(w, h, n, e);
    CanonicalGrows(w, h, h', n.log);
    assert LeadershipOk(w, h, n.currentTerm);
    forall p: nat | |w.prefix| <= p < |log'| ensures FromLeader(h', log', p) {
      if p < |n.log| {
        assert FromLeader(h', n.log, p);
        assert log'[..p + 1] == n.log[..p + 1];
      } else {
        assert log'[..p + 1] == log' == Pre(h', n.currentTerm, p + 1);
      }
    }
  }

  lemma LongerLeadership(w: World, h: History, n: Node, e: Entry)
    requires HistoryOk(w, h) && RecordOk(w, h, n) && n.role == Leader && e.term == n.currentTerm && Plain(e)
    ensures LeadershipOk(w, AddEntry(h, n, e), n.currentTerm) && QuorumOk(w, AddEntry(h, n, e), n.currentTerm)
  {
    LongerLogCanonical(w, h, n, e);
    assert LeadershipOk(w, h, n.currentTerm) && QuorumOk(w, h, n.currentTerm);
  }

  lemma HistoryWithEntry(w: World, h: History, n: Node, e: Entry)
    requires HistoryOk(w, h) && RecordOk(w, h, n) && VoterOk(h, n)
    requires n.role == Leader && e.term == n.currentTerm && Plain(e)
    ensures HistoryOk(w, AddEntry(h, n, e)) && Grows(h, AddEntry(h, n, e))
  {
    var h' := AddEntry(h, n, e);
    var log' := n.log + [e];
    AddEntryGrows(w, h, n, e);
    LongerLeadership(w, h, n, e);
    assert LeadershipOk(w, h, n.currentTerm);
    forall p: nat | |w.prefix| <= p < |log'| ensures Acked(h', n.id, log'[p].term) >= p + 1 {
      if p < |n.log| { assert Acked(h, n.id, n.log[p].term) >= p + 1; }
    }
    HistoryGrows(w, h, h');
  }

  lemma LongerKept(w: World, h: History, n: Node, e: Entry)
    requires HistoryOk(w, h) && RecordOk(w, h, n) && n.role == Leader
    ensures Kept(AddEntry(h, n, e), n.id, n.log + [e], n.currentTerm + 1)
  {
    var h' := AddEntry(h, n, e);
    var t := n.currentTerm;
    AddEntryGrows(w, h, n, e);
    forall u: nat, k: nat | u < t + 1 && u in h'.leaders && k <= Acked(h', n.id, u)
      ensures Pre(h', u, k) <= n.log + [e] || Overwritten(h', u, k, t + 1)
    {
      if u < t {
        assert Pre(h, u, k) <= n.log || Overwritten(h, u, k, t + 1);
        assert Pre(h', u, k) == Pre(h, u, k);
        if Overwritten(h, u, k, t + 1) {
          var x: nat :| u < x < t + 1 && x in h.leaders && !(Pre(h, u, k) <= Elected(h, x));
          ElectedGrows(w, h, h', x);
        }
      }
    }
  }

  lemma LongerAcks(w: World, h: History, n: Node, n': Node, e: Entry)
    requires HistoryOk(w, h) && RecordOk(w, h, n) && n.role == Leader && e.term == n.currentTerm
    requires n'.id == n.id && n'.log == n.log + [e] && n'.currentTerm == n.currentTerm
    ensures AcksOk(w, AddEntry(h, n, e), n')
  {
    AddEntryGrows(w, h, n, e);
    LongerKept(w, h, n, e);
    forall p: nat | |w.prefix| <= p < |n'.log| ensures Acked(AddEntry(h, n, e), n.id, n'.log[p].term) >= p + 1 {
      if p < |n.log| { assert Acked(h, n.id, n.log[p].term) >= p + 1; }
    }
  }

  lemma LongerCommit(w: World, h: History, n: Node, n': Node, e: Entry)
    requires HistoryOk(w, h) && RecordOk(w, h, n) && n.role == Leader && e.term == n.currentTerm
    requires n'.id == n.id && n'.log == n.log + [e] && n'.currentTerm == n.currentTerm
    requires n'.commitIdx == n.commitIdx && n'.lastApplied == n.lastApplied
    requires n'.store == n.store && n'.disk.store == n.disk.store
    ensures CommitOk(w, AddEntry(h, n, e), n') && StoreOk(AddEntry(h, n, e), n')
  {
    AddEntryGrows(w, h, n, e);
    CommittedGrows(w, h, AddEntry(h, n, e), n.log, Stable(h, n.id), n.currentTerm);
    CommittedShrinks(w, AddEntry(h, n, e), n.log, Stable(h, n.id), n.currentTerm, n'.log, Stable(h, n.id),
          n.currentTerm);
    StoreFollowsLog(h, n, n');
  }

  /** The state of a leader that has appended `e`. */
  ghost function Longer(n: Node, e: Entry): Node {
    n.(log := n.log + [e]).Save()
  }

  lemma LongerVotes(h: History, requests: set<VoteRequest>, n: Node, e: Entry)
    requires n.currentTerm in h.leaders && h.leaders[n.currentTerm].id == n.id && n.role == Leader
    requires VoterOk(h, n) && CandidateOk(h, requests, n)
    ensures VoterOk(AddEntry(h, n, e), Longer(n, e)) && CandidateOk(AddEntry(h, n, e), requests, Longer(n, e))
  {
  }

  lemma LongerLeads(w: World, h: History, n: Node, e: Entry)
    requires FixedOk(w, n) && LeaderOk(w, h, n) && n.role == Leader
    ensures LeaderOk(w, AddEntry(h, n, e), Longer(n, e))
  {
    AddEntryGrows(w, h, n, e);
    forall j | j in n.peers ensures TracksPeer(AddEntry(h, n, e), Longer(n, e), j) {
      assert TracksPeer(h, n, j);
    }
  }

  lemma LongerNodeOk(w: World, h: History, requests: set<VoteRequest>, n: Node, e: Entry)
    requires HistoryOk(w, h) && NodeOk(w, h, requests, n) && n.role == Leader && e.term == n.currentTerm
    ensures NodeOk(w, AddEntry(h, n, e), requests, Longer(n, e))
  {
    LongerLogCanonical(w, h, n, e);
    LongerAcks(w, h, n, Longer(n, e), e);
    LongerCommit(w, h, n, Longer(n, e), e);
    LongerVotes(h, requests, n, e);
    LongerLeads(w, h, n, e);
  }

  lemma EntryOfOthers(w: World, h: History, requests: set<VoteRequest>, n: Node, e: Entry, other: Node)
    requires FixedOk(w, n) && LeaderOk(w, h, n) && n.role == Leader && other.id != n.id
    ensures Uninvolved(h, AddEntry(h, n, e), requests, requests, other)
  {
    AddEntryGrows(w, h, n, e);
  }

  lemma PutLonger(w: World, s: System, h: History, i: int, e: Entry)
    requires Inv(w, s, h) && i in w.ids && s.nodes[i].role == Leader
    requires HistoryOk(w, AddEntry(h, s.nodes[i], e)) && Grows(h, AddEntry(h, s.nodes[i], e))
    requires NodeOk(w, AddEntry(h, s.nodes[i], e), s.requests, Longer(s.nodes[i], e))
    ensures Inv(w, Put(s, i, Longer(s.nodes[i], e)), AddEntry(h, s.nodes[i], e))
  {
    var h' := AddEntry(h, s.nodes[i], e);
    forall k | k in w.ids && k != i ensures Uninvolved(h, h', s.requests, s.requests, s.nodes[k]) {
      EntryOfOthers(w, h, s.requests, s.nodes[i], e, s.nodes[k]);
    }
    PutKeepsInv(w, s, h, h', i, Longer(s.nodes[i], e));
  }

  lemma SubmitStep(w: World, s: System, h: History, i: int, command: string) returns (h': History)
    requires Inv(w, s, h) && i in w.ids && forall t: nat :: Plain(Commands.EntryOf(t, command))
    ensures Inv(w, Put(s, i, Propose(s.nodes[i], command).0), h') && Grows(h, h') && h'.applied == h.applied
  {
    var n := s.nodes[i];
    h' := h;
    GrowsSame(h);
    if n.role == Leader {
      var e := Commands.EntryOf(n.currentTerm, command);
      h' := AddEntry(h, n, e);
      HistoryWithEntry(w, h, n, e);
      LongerNodeOk(w, h, s.requests, n, e);
      PutLonger(w, s, h, i, e);
    } else {
      PutSame(s, i);
    }
  }
}
