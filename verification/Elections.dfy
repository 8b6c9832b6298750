/** Election steps keep the invariants. */
module Elections {
  import opened Types
  import opened Sets
  import opened NodeSpec
  import opened Cluster
  import opened History
  import opened Safety
  import opened Growth

  lemma PutSame(s: System, i: int)
    requires i in s.nodes
    ensures Put(s, i, s.nodes[i]) == s
  {
    assert s.nodes[i := s.nodes[i]] == s.nodes;
  }

  /** What is under way stays in order when the history grows. */
  lemma NetworkGrows(w: World, s: System, h: History, h': History)
    requires Inv(w, s, h) && HistoryOk(w, h') && Grows(h, h')
    ensures forall m {:trigger AnnouncementOk(w, h', m)} :: m in s.announcements ==> AnnouncementOk(w, h', m)
    ensures forall g {:trigger GrantOk(h', g)} :: g in s.grants ==> GrantOk(h', g)
  {
    forall m | m in s.announcements ensures AnnouncementOk(w, h', m) {
      AnnouncementGrows(w, h, h', m);
    }
    forall g | g in s.grants ensures GrantOk(h', g) {
      assert GrantOk(h, g);
    }
  }

  lemma OthersGrow(w: World, s: System, h: History, h': History, k: int)
    requires Inv(w, s, h) && HistoryOk(w, h') && Grows(h, h')
    requires forall i :: i in w.ids && i != k ==> Uninvolved(h, h', s.requests, s.requests, s.nodes[i])
    ensures forall i :: i in w.ids && i != k ==> NodeOk(w, h', s.requests, s.nodes[i])
  {
    forall i | i in w.ids && i != k ensures NodeOk(w, h', s.requests, s.nodes[i]) {
      NodeGrows(w, h, h', s.requests, s.requests, s.nodes[i]);
    }
  }

  /** A step that changes one node, and perhaps the history, keeps the invariants if its own part does. */
  lemma PutKeepsInv(w: World, s: System, h: History, h': History, k: int, n: Node)
    requires Inv(w, s, h) && k in w.ids
    requires HistoryOk(w, h') && Grows(h, h')
    requires n.id == k && NodeOk(w, h', s.requests, n)
    requires forall i :: i in w.ids && i != k ==> Uninvolved(h, h', s.requests, s.requests, s.nodes[i])
    ensures Inv(w, Put(s, k, n), h')
  {
    NetworkGrows(w, s, h, h');
    OthersGrow(w, s, h, h', k);
  }

  /** A step that changes one node and leaves the history alone. */
  lemma PutKeepsInvSameHistory(w: World, s: System, h: History, k: int, n: Node)
    requires Inv(w, s, h) && k in w.ids
    requires n.id == k && NodeOk(w, h, s.requests, n)
    ensures Inv(w, Put(s, k, n), h)
  {
  }

  lemma GrowsSame(h: History)
    ensures Grows(h, h)
  {
  }

  /** A ballot cast by `n` for a candidate whose log ends as claimed. */
  ghost function BallotOf(h: History, n: Node, t: nat, candidate: int, lastIndex: int, lastTerm: nat): Ballot {
    Ballot(candidate, n.log, lastIndex, lastTerm, t in h.leaders)
  }

  ghost function AddBallot(h: History, t: nat, v: int, b: Ballot): History {
    h.(ballots := h.ballots[(t, v) := b])
  }

  lemma AddBallotGrows(h: History, t: nat, v: int, b: Ballot)
    requires (t, v) !in h.ballots
    ensures Grows(h, AddBallot(h, t, v, b))
  {
  }

  /** A node that has not passed term `t` casts a ballot that keeps what it has acknowledged. */
  lemma NewBallotOk(w: World, h: History, n: Node, t: nat, b: Ballot)
    requires WellFormed(w) && w.prefix != [] && HistoryOk(w, h) && FixedOk(w, n) && Canonical(w, h, n.log)
          && AcksOk(w, h, n)
    requires n.currentTerm <= t && b.candidate in w.ids && (t, n.id) !in h.ballots
    requires b == BallotOf(h, n, t, b.candidate, b.lastIndex, b.lastTerm)
    requires UpToDate(b.lastTerm, b.lastIndex, n.LastTerm(), |n.log|)
    ensures HistoryOk(w, AddBallot(h, t, n.id, b))
  {
    var h' := AddBallot(h, t, n.id, b);
    AddBallotGrows(h, t, n.id, b);
    CanonicalGrows(w, h, h', n.log);
    if !b.late {
      KeptBelow(w, h, n, t);
      KeptGrows(w, h, h', n.id, n.log, t);
    }
    HistoryGrows(w, h, h');
  }

  /** If term `t` has no leader yet, what a node keeps up to its term it keeps with respect to terms below `t`. */
  lemma KeptBelow(w: World, h: History, n: Node, t: nat)
    requires HistoryOk(w, h) && AcksOk(w, h, n) && n.currentTerm <= t && t !in h.leaders
    ensures Kept(h, n.id, n.log, t)
  {
    forall u: nat, k: nat | u < t && u in h.leaders && k <= Acked(h, n.id, u)
      ensures Pre(h, u, k) <= n.log || Overwritten(h, u, k, t)
    {
      if u <= n.currentTerm {
        if Overwritten(h, u, k, n.currentTerm + 1) {
          var x: nat :| u < x < n.currentTerm + 1 && x in h.leaders && !(Pre(h, u, k) <= Elected(h, x));
          assert u < x < t;
        }
      } else {
        assert k == 0;
      }
    }
  }

  /** A node that only moves to a later term, without becoming a leader, keeps what it has acknowledged. */
  lemma AcksInLaterTerm(w: World, h: History, n: Node, n': Node)
    requires HistoryOk(w, h) && AcksOk(w, h, n)
    requires n'.id == n.id && n'.log == n.log && n'.currentTerm >= n.currentTerm
    ensures AcksOk(w, h, n')
  {
    forall u: nat, k: nat | u < n'.currentTerm + 1 && u in h.leaders && k <= Acked(h, n.id, u)
      ensures Pre(h, u, k) <= n.log || Overwritten(h, u, k, n'.currentTerm + 1)
    {
      if u <= n.currentTerm {
        if Overwritten(h, u, k, n.currentTerm + 1) {
          var x: nat :| u < x < n.currentTerm + 1 && x in h.leaders && !(Pre(h, u, k) <= Elected(h, x));
          assert u < x < n'.currentTerm + 1;
        }
      } else {
        assert k == 0;
      }
    }
  }

  lemma CommitInLaterTerm(w: World, h: History, n: Node, n': Node)
    requires CommitOk(w, h, n)
    requires n'.id == n.id && n'.log == n.log && n'.currentTerm >= n.currentTerm
    requires n'.commitIdx == n.commitIdx && n'.lastApplied == n.lastApplied
    ensures CommitOk(w, h, n')
  {
    CommittedShrinks(w, h, n.log, Stable(h, n.id), n.currentTerm, n.log, Stable(h, n.id), n'.currentTerm);
  }

  /** A node that moves to another term or role, but not to leading, keeps its record. */
  lemma RecordInLaterTerm(w: World, h: History, n: Node, n': Node)
    requires HistoryOk(w, h) && RecordOk(w, h, n)
    requires n'.currentTerm >= n.currentTerm
    requires n'.role == Leader ==> n.role == Leader && n'.currentTerm == n.currentTerm
    requires n'.role != Follower ==> n'.currentTerm > w.term
    requires n' == n.(currentTerm := n'.currentTerm, votedFor := n'.votedFor, role := n'.role, leaderId := n'.leaderId,
                      disk := n'.disk)
    requires n'.disk.store == n.disk.store && n'.disk.snapshot == n.disk.snapshot
    ensures RecordOk(w, h, n')
  {
    AcksInLaterTerm(w, h, n, n');
    CommitInLaterTerm(w, h, n, n');
  }

  lemma RecordWithBallot(w: World, h: History, t: nat, v: int, b: Ballot, n: Node)
    requires HistoryOk(w, h) && RecordOk(w, h, n) && (t, v) !in h.ballots
    ensures RecordOk(w, AddBallot(h, t, v, b), n)
  {
    var h' := AddBallot(h, t, v, b);
    AddBallotGrows(h, t, v, b);
    CanonicalGrows(w, h, h', n.log);
    KeptGrows(w, h, h', n.id, n.log, n.currentTerm + 1);
    CommittedGrows(w, h, h', n.log, Stable(h, n.id), n.currentTerm);
  }

  /** A node that becomes a follower, perhaps of a later term and with its vote withdrawn, keeps its invariants. */
  lemma StepsDown(w: World, h: History, requests: set<VoteRequest>, n: Node, n': Node)
    requires HistoryOk(w, h) && NodeOk(w, h, requests, n)
    requires n'.currentTerm >= n.currentTerm && (n'.currentTerm == n.currentTerm ==> n'.votedFor == n.votedFor)
    requires n' == n.(currentTerm := n'.currentTerm, votedFor := n'.votedFor, role := Follower, leaderId := n'.leaderId,
                      disk := n'.disk)
    requires n'.disk.store == n.disk.store && n'.disk.snapshot == n.disk.snapshot
    ensures NodeOk(w, h, requests, n')
  {
    RecordInLaterTerm(w, h, n, n');
  }

  // ----- the election timer -----

  ghost function SelfBallot(h: History, n: Node): History {
    AddBallot(h, n.currentTerm + 1, n.id, BallotOf(h, n, n.currentTerm + 1, n.id, |n.log|, n.LastTerm()))
  }

  lemma CandidateVotes(h: History, requests: set<VoteRequest>, n: Node)
    requires VoterOk(h, n) && CandidateOk(h, requests, n)
    ensures VoterOk(SelfBallot(h, n), StartElection(n)) || n.role == Leader
    ensures CandidateOk(SelfBallot(h, n), requests, StartElection(n)) || n.role == Leader
  {
    var h' := SelfBallot(h, n);
    forall t: nat, v: int | (t, v) in h'.ballots && h'.ballots[(t, v)].candidate == n.id && n.role != Leader
      ensures SpeaksOf(StartElection(n), t, h'.ballots[(t, v)])
    {
    }
  }

  lemma CandidateNodeOk(w: World, h: History, requests: set<VoteRequest>, n: Node)
    requires WellFormed(w) && w.prefix != [] && HistoryOk(w, h) && NodeOk(w, h, requests, n) && n.role != Leader
    ensures HistoryOk(w, SelfBallot(h, n)) && Grows(h, SelfBallot(h, n))
    ensures NodeOk(w, SelfBallot(h, n), requests, StartElection(n))
  {
    var n' := StartElection(n);
    var h' := SelfBallot(h, n);
    var b := h'.ballots[(n'.currentTerm, n.id)];
    assert (n'.currentTerm, n.id) !in h.ballots by { assert VoterOk(h, n); }
    AddBallotGrows(h, n'.currentTerm, n.id, b);
    NewBallotOk(w, h, n, n'.currentTerm, b);
    RecordWithBallot(w, h, n'.currentTerm, n.id, b, n);
    RecordInLaterTerm(w, h', n, n');
    CandidateVotes(h, requests, n);
  }

  lemma SelfBallotOfOthers(h: History, requests: set<VoteRequest>, n: Node, other: Node)
    requires Grows(h, SelfBallot(h, n)) && other.id != n.id
    ensures Uninvolved(h, SelfBallot(h, n), requests, requests, other)
  {
  }

  lemma TimeoutStep(w: World, s: System, h: History, i: int) returns (h': History)
    requires WellFormed(w) && w.prefix != [] && Inv(w, s, h) && i in w.ids && s.nodes[i].role != Leader
    ensures Inv(w, Put(s, i, StartElection(s.nodes[i])), h') && Grows(h, h') && h'.applied == h.applied
  {
    h' := SelfBallot(h, s.nodes[i]);
    CandidateNodeOk(w, h, s.requests, s.nodes[i]);
    forall k | k in w.ids && k != i ensures Uninvolved(h, h', s.requests, s.requests, s.nodes[k]) {
      SelfBallotOfOthers(h, s.requests, s.nodes[i], s.nodes[k]);
    }
    PutKeepsInv(w, s, h, h', i, StartElection(s.nodes[i]));
  }

  // ----- asking for votes -----

  lemma RequestOk(h: History, requests: set<VoteRequest>, n: Node, asking: Node)
    requires CandidateOk(h, requests, n)
    requires n.id == asking.id ==> n == asking
    requires asking.lastSnapshotIndex == 0
    ensures CandidateOk(h, requests + {VoteRequestOf(asking)}, n)
  {
  }

  lemma RequestNodeOk(w: World, h: History, requests: set<VoteRequest>, n: Node, asking: Node)
    requires NodeOk(w, h, requests, n) && FixedOk(w, asking)
    requires n.id == asking.id ==> n == asking
    ensures NodeOk(w, h, requests + {VoteRequestOf(asking)}, n)
  {
    RequestOk(h, requests, n, asking);
  }

  lemma AllRequestOk(w: World, s: System, h: History, i: int)
    requires Inv(w, s, h) && i in w.ids
    ensures forall k :: k in w.ids ==> NodeOk(w, h, s.requests + {VoteRequestOf(s.nodes[i])}, s.nodes[k])
  {
    forall k | k in w.ids ensures NodeOk(w, h, s.requests + {VoteRequestOf(s.nodes[i])}, s.nodes[k]) {
      RequestNodeOk(w, h, s.requests, s.nodes[k], s.nodes[i]);
    }
  }

  lemma AddRequest(w: World, s: System, h: History, m: VoteRequest)
    requires Inv(w, s, h) && m.candidate in w.ids
    requires forall k :: k in w.ids ==> NodeOk(w, h, s.requests + {m}, s.nodes[k])
    ensures Inv(w, s.(requests := s.requests + {m}), h)
  {
  }

  lemma AskVotesStep(w: World, s: System, h: History, i: int)
    requires Inv(w, s, h) && i in w.ids
    ensures Inv(w, s.(requests := s.requests + {VoteRequestOf(s.nodes[i])}), h)
  {
    AllRequestOk(w, s, h, i);
    AddRequest(w, s, h, VoteRequestOf(s.nodes[i]));
  }

  // ----- answering a vote request -----

  /** Refusing, or granting again, a vote changes nothing but the term. */
  lemma ObservesCandidate(w: World, h: History, requests: set<VoteRequest>, n: Node, term: nat)
    requires HistoryOk(w, h) && NodeOk(w, h, requests, n)
    ensures NodeOk(w, h, requests, ObserveCandidate(n, term))
  {
    if term > n.currentTerm { StepsDown(w, h, requests, n, ObserveCandidate(n, term)); }
  }

  ghost function VoteBallot(h: History, n: Node, m: VoteRequest): History {
    if (m.term, n.id) in h.ballots then h
    else AddBallot(h, m.term, n.id, BallotOf(h, n, m.term, m.candidate, m.lastLogIndex, m.lastLogTerm))
  }

  /** The state of a node that grants a vote. */
  ghost function Granting(n: Node, m: VoteRequest): Node {
    n.(votedFor := m.candidate).Save()
  }

  /** A granted vote is the node's first in the term, or repeats it. */
  lemma GrantingVotes(h: History, requests: set<VoteRequest>, n: Node, m: VoteRequest)
    requires VoterOk(h, n) && CandidateOk(h, requests, n)
    requires m.term == n.currentTerm && (n.votedFor == -1 || n.votedFor == m.candidate) && n.id != m.candidate
    requires -1 != n.id
    requires (m.term, n.id) in h.ballots ==> h.ballots[(m.term, n.id)].candidate != -1
    ensures var h' := VoteBallot(h, n, m);
      && VoterOk(h', Granting(n, m))
      && CandidateOk(h', requests, Granting(n, m))
      && GrantOk(h', Grant(m.term, n.id, m.candidate))
  {
    var h' := VoteBallot(h, n, m);
    var n' := Granting(n, m);
    forall t: nat, v: int | (t, v) in h'.ballots && h'.ballots[(t, v)].candidate == n.id
      ensures SpeaksOf(n', t, h'.ballots[(t, v)])
    {
    }
  }

  lemma GrantingNodeOk(w: World, h: History, requests: set<VoteRequest>, n: Node, m: VoteRequest)
    requires WellFormed(w) && w.prefix != [] && HistoryOk(w, h) && NodeOk(w, h, requests, n)
    requires m.term == n.currentTerm && (n.votedFor == -1 || n.votedFor == m.candidate) && n.id != m.candidate
    requires m.candidate in w.ids && UpToDate(m.lastLogTerm, m.lastLogIndex, n.LastTerm(), n.LastIndex())
    ensures var h' := VoteBallot(h, n, m);
      && HistoryOk(w, h') && Grows(h, h')
      && NodeOk(w, h', requests, Granting(n, m))
      && GrantOk(h', Grant(m.term, n.id, m.candidate))
  {
    var h' := VoteBallot(h, n, m);
    if (m.term, n.id) !in h.ballots {
      var b := h'.ballots[(m.term, n.id)];
      AddBallotGrows(h, m.term, n.id, b);
      NewBallotOk(w, h, n, m.term, b);
      RecordWithBallot(w, h, m.term, n.id, b, n);
    } else {
      GrowsSame(h);
      assert BallotOk(w, h, m.term, n.id);
    }
    RecordInLaterTerm(w, h', n, Granting(n, m));
    GrantingVotes(h, requests, n, m);
  }

  /** The ballot for a candidate says what its request said. */
  lemma VoteBallotOfOthers(h: History, requests: set<VoteRequest>, n: Node, m: VoteRequest, other: Node)
    requires Grows(h, VoteBallot(h, n, m)) && CandidateOk(h, requests, other) && m in requests && other.id != n.id
    ensures Uninvolved(h, VoteBallot(h, n, m), requests, requests, other)
  {
  }

  lemma AddGrant(w: World, s: System, h: History, g: Grant)
    requires Inv(w, s, h) && GrantOk(h, g)
    ensures Inv(w, s.(grants := s.grants + {g}), h)
  {
  }

  lemma WhenGranted(n: Node, m: VoteRequest)
    requires RequestVote(n, m).1
    ensures var n' := ObserveCandidate(n, m.term);
      && m.term == n'.currentTerm && (n'.votedFor == -1 || n'.votedFor == m.candidate)
      && UpToDate(m.lastLogTerm, m.lastLogIndex, n'.LastTerm(), n'.LastIndex())
      && RequestVote(n, m).0 == Granting(n', m)
  {
  }

  /** The node puts its new state and its ballot down, and nobody else is concerned. */
  lemma PutGranting(w: World, s: System, h: History, j: int, n: Node, m: VoteRequest)
    requires Inv(w, s, h) && j in w.ids && m in s.requests && n.id == j
    requires HistoryOk(w, VoteBallot(h, n, m)) && Grows(h, VoteBallot(h, n, m))
    requires NodeOk(w, VoteBallot(h, n, m), s.requests, Granting(n, m))
    ensures Inv(w, Put(s, j, Granting(n, m)), VoteBallot(h, n, m))
  {
    var h' := VoteBallot(h, n, m);
    forall i | i in w.ids && i != j ensures Uninvolved(h, h', s.requests, s.requests, s.nodes[i]) {
      VoteBallotOfOthers(h, s.requests, n, m, s.nodes[i]);
    }
    PutKeepsInv(w, s, h, h', j, Granting(n, m));
  }

  lemma ObservedInSystem(w: World, s: System, h: History, j: int, term: nat)
    requires Inv(w, s, h) && j in w.ids
    ensures var n := ObserveCandidate(s.nodes[j], term); n.id == j && NodeOk(w, h, s.requests, n)
  {
    ObservesCandidate(w, h, s.requests, s.nodes[j], term);
  }

  /** A node that has observed the request grants it, and its vote is under way. */
  lemma GrantObserved(w: World, s: System, h: History, j: int, n: Node, m: VoteRequest)
    requires WellFormed(w) && w.prefix != [] && Inv(w, s, h) && NodeOk(w, h, s.requests, n)
    requires j in w.ids && n.id == j && m in s.requests && j != m.candidate
    requires m.term == n.currentTerm && (n.votedFor == -1 || n.votedFor == m.candidate)
    requires UpToDate(m.lastLogTerm, m.lastLogIndex, n.LastTerm(), n.LastIndex())
    ensures Grows(h, VoteBallot(h, n, m))
    ensures Inv(w, Put(s, j, Granting(n, m)).(grants := s.grants + {Grant(m.term, j, m.candidate)}),
                VoteBallot(h, n, m))
  {
    GrantingNodeOk(w, h, s.requests, n, m);
    PutGranting(w, s, h, j, n, m);
    AddGrant(w, Put(s, j, Granting(n, m)), VoteBallot(h, n, m), Grant(m.term, j, m.candidate));
  }

  lemma GrantStep(w: World, s: System, h: History, j: int, m: VoteRequest) returns (h': History)
    requires WellFormed(w) && w.prefix != [] && Inv(w, s, h)
    requires j in w.ids && m in s.requests && j != m.candidate && RequestVote(s.nodes[j], m).1
    ensures Inv(w, Put(s, j, RequestVote(s.nodes[j], m).0).(grants := s.grants + {Grant(m.term, j, m.candidate)}), h')
    ensures Grows(h, h') && h'.applied == h.applied
  {
    var n := ObserveCandidate(s.nodes[j], m.term);
    WhenGranted(s.nodes[j], m);
    ObservedInSystem(w, s, h, j, m.term);
    h' := VoteBallot(h, n, m);
    GrantObserved(w, s, h, j, n, m);
    assert Put(s, j, RequestVote(s.nodes[j], m).0) == Put(s, j, Granting(n, m));
    assert h'.applied == h.applied;
  }

  lemma RefuseStep(w: World, s: System, h: History, j: int, m: VoteRequest)
    requires Inv(w, s, h) && j in w.ids && !RequestVote(s.nodes[j], m).1
    ensures Inv(w, Put(s, j, RequestVote(s.nodes[j], m).0), h)
  {
    ObservesCandidate(w, h, s.requests, s.nodes[j], m.term);
    PutKeepsInvSameHistory(w, s, h, j, RequestVote(s.nodes[j], m).0);
  }

  // ----- the outcome of an election -----

  lemma LoseStep(w: World, s: System, h: History, i: int)
    requires Inv(w, s, h) && i in w.ids
    ensures Inv(w, Put(s, i, s.nodes[i].(role := Follower)), h)
  {
    var n := s.nodes[i];
    StepsDown(w, h, s.requests, n, n.(role := Follower));
    PutKeepsInvSameHistory(w, s, h, i, n.(role := Follower));
  }

  /** The votes that a candidate has counted. */
  ghost predicate Elects(s: System, n: Node, voters: set<int>) {
    && n.role == Candidate && voters <= n.peers
    && (forall v :: v in voters ==> Grant(n.currentTerm, v, n.id) in s.grants)
    && WinsElection(n, 1 + |voters|)
  }

  /** Votes in a term are for one candidate: who has a majority's votes is the leader of the term, if it has one. */
  lemma MajorityIsForTheLeader(w: World, s: System, h: History, n: Node, voters: set<int>)
    requires HistoryOk(w, h) && FixedOk(w, n) && VoterOk(h, n) && n.role == Candidate
    requires forall g {:trigger GrantOk(h, g)} :: g in s.grants ==> GrantOk(h, g)
    requires Elects(s, n, voters)
    requires n.currentTerm in h.leaders
    ensures h.leaders[n.currentTerm].id == n.id
  {
    assert QuorumOk(w, h, n.currentTerm);
    assert |n.peers| + 1 == |w.ids|;
    var v := MajoritiesMeet(w.ids, h.leaders[n.currentTerm].quorum, voters + {n.id});
    if v in voters { assert GrantOk(h, Grant(n.currentTerm, v, n.id)); }
  }

  /** Election safety: a term in which a candidate has just won has no leader yet. */
  lemma WinnerIsFirst(w: World, s: System, h: History, n: Node, voters: set<int>)
    requires HistoryOk(w, h) && NodeOk(w, h, s.requests, n)
    requires forall g {:trigger GrantOk(h, g)} :: g in s.grants ==> GrantOk(h, g)
    requires Elects(s, n, voters)
    ensures n.currentTerm !in h.leaders
  {
    if n.currentTerm in h.leaders {
      MajorityIsForTheLeader(w, s, h, n, voters);
      assert false;
    }
  }

  ghost function AddLeader(h: History, n: Node, voters: set<int>): History {
    h.(leaders := h.leaders[n.currentTerm := Leadership(n.id, |n.log|, n.log, voters + {n.id})],
       acked := h.acked[(n.id, n.currentTerm) := |n.log|])
  }

  lemma AddLeaderGrows(w: World, h: History, n: Node, voters: set<int>)
    requires HistoryOk(w, h) && n.currentTerm !in h.leaders
    ensures Grows(h, AddLeader(h, n, voters))
    ensures forall id: int, t: nat :: (id, t) != (n.id, n.currentTerm) ==>
              Acked(AddLeader(h, n, voters), id, t) == Acked(h, id, t)
    ensures Acked(AddLeader(h, n, voters), n.id, n.currentTerm) == |n.log|
  {
    assert AckOk(h, n.id, n.currentTerm);
  }

  /** The entries of a canonical log are plain, and of terms that had a leader. */
  lemma CanonicalEntries(w: World, h: History, log: seq<Entry>, p: nat)
    requires WellFormed(w) && HistoryOk(w, h) && Canonical(w, h, log) && p < |log|
    ensures Plain(log[p])
    ensures p < |w.prefix| ==> log[p].term <= w.term
    ensures p >= |w.prefix| ==> log[p].term in h.leaders
  {
    if p < |w.prefix| {
      assert log[p] == w.prefix[p];
    } else {
      var t := log[p].term;
      assert FromLeader(h, log, p) && LeadershipOk(w, h, t);
      assert log[p] == log[..p + 1][p] == h.leaders[t].log[p];
    }
  }

  /** The log of a winner holds entries of earlier terms only. */
  lemma WinnersLogIsOlder(w: World, h: History, n: Node, p: nat)
    requires WellFormed(w) && HistoryOk(w, h) && RecordOk(w, h, n)
    requires n.role == Candidate && n.currentTerm !in h.leaders && p < |n.log|
    ensures n.log[p].term < n.currentTerm
  {
    CanonicalEntries(w, h, n.log, p);
    if p >= |w.prefix| { assert Acked(h, n.id, n.log[p].term) >= p + 1; }
  }

  lemma NewLeadershipOk(w: World, h: History, n: Node, voters: set<int>)
    requires WellFormed(w) && HistoryOk(w, h) && RecordOk(w, h, n)
    requires n.role == Candidate && n.currentTerm !in h.leaders
    ensures LeadershipOk(w, AddLeader(h, n, voters), n.currentTerm)
  {
    var h' := AddLeader(h, n, voters);
    AddLeaderGrows(w, h, n, voters);
    CanonicalGrows(w, h, h', n.log);
    forall p: nat | p < |n.log| ensures n.log[p].term < n.currentTerm && Plain(n.log[p]) {
      WinnersLogIsOlder(w, h, n, p);
      CanonicalEntries(w, h, n.log, p);
    }
  }

  lemma NewQuorumOk(w: World, s: System, h: History, n: Node, voters: set<int>)
    requires HistoryOk(w, h) && FixedOk(w, n) && VoterOk(h, n) && CandidateOk(h, s.requests, n) && n.log != []
    requires forall g {:trigger GrantOk(h, g)} :: g in s.grants ==> GrantOk(h, g)
    requires Elects(s, n, voters) && n.currentTerm !in h.leaders
    ensures QuorumOk(w, AddLeader(h, n, voters), n.currentTerm)
  {
    var quorum := voters + {n.id};
    assert |n.peers| + 1 == |w.ids|;
    forall v | v in quorum
      ensures (n.currentTerm, v) in h.ballots
      ensures var b := h.ballots[(n.currentTerm, v)];
        !b.late && b.candidate == n.id && b.lastIndex == |n.log| && b.lastTerm == n.LastTerm()
    {
      if v in voters { assert GrantOk(h, Grant(n.currentTerm, v, n.id)); }
      assert BallotOk(w, h, n.currentTerm, v);
    }
  }

  lemma HistoryWithLeader(w: World, s: System, h: History, n: Node, voters: set<int>)
    requires WellFormed(w) && HistoryOk(w, h) && NodeOk(w, h, s.requests, n) && w.prefix != []
    requires forall g {:trigger GrantOk(h, g)} :: g in s.grants ==> GrantOk(h, g)
    requires Elects(s, n, voters) && n.currentTerm !in h.leaders
    ensures HistoryOk(w, AddLeader(h, n, voters)) && Grows(h, AddLeader(h, n, voters))
  {
    var h' := AddLeader(h, n, voters);
    AddLeaderGrows(w, h, n, voters);
    NewLeadershipOk(w, h, n, voters);
    NewQuorumOk(w, s, h, n, voters);
    forall t: nat, v: int | (t, v) in h.ballots ensures AcksFrozen(h, h', t, v) {
      if v == n.id { assert t <= n.currentTerm; }
    }
    assert AckedInOwnTerm(w, h, n.id, n.log, |n.log|);
    assert AckedInOwnTerm(w, h', n.id, n.log, |n.log|);
    HistoryGrows(w, h, h');
  }

  /** The winner keeps what it has acknowledged, and has now acknowledged its own log. */
  lemma WinnersAcks(w: World, h: History, n: Node, voters: set<int>)
    requires WellFormed(w) && HistoryOk(w, h) && RecordOk(w, h, n) && n.currentTerm !in h.leaders
    ensures AcksOk(w, AddLeader(h, n, voters), BecomeLeader(n))
  {
    var h' := AddLeader(h, n, voters);
    var t := n.currentTerm;
    AddLeaderGrows(w, h, n, voters);
    KeptBelow(w, h, n, t);
    KeptGrows(w, h, h', n.id, n.log, t);
    forall u: nat, k: nat | u < t + 1 && u in h'.leaders && k <= Acked(h', n.id, u)
      ensures Pre(h', u, k) <= n.log || Overwritten(h', u, k, t + 1)
    {
      if u < t && Overwritten(h', u, k, t) {
        var x: nat :| u < x < t && x in h'.leaders && !(Pre(h', u, k) <= Elected(h', x));
        assert u < x < t + 1;
      }
    }
  }

  lemma WinnerLeads(w: World, h: History, n: Node, voters: set<int>)
    requires HistoryOk(w, h) && FixedOk(w, n) && n.role == Candidate && n.currentTerm !in h.leaders
    ensures FixedOk(w, BecomeLeader(n)) && LeaderOk(w, AddLeader(h, n, voters), BecomeLeader(n))
  {
    var h', n' := AddLeader(h, n, voters), BecomeLeader(n);
    AddLeaderGrows(w, h, n, voters);
    forall j | j in n'.peers ensures TracksPeer(h', n', j) { }
  }

  lemma WinnerNodeOk(w: World, h: History, requests: set<VoteRequest>, n: Node, voters: set<int>)
    requires WellFormed(w) && w.prefix != [] && HistoryOk(w, h) && NodeOk(w, h, requests, n)
    requires n.role == Candidate && n.currentTerm !in h.leaders
    ensures NodeOk(w, AddLeader(h, n, voters), requests, BecomeLeader(n))
  {
    var h' := AddLeader(h, n, voters);
    var n' := BecomeLeader(n);
    AddLeaderGrows(w, h, n, voters);
    CanonicalGrows(w, h, h', n.log);
    WinnersAcks(w, h, n, voters);
    CommittedGrows(w, h, h', n.log, Stable(h, n.id), n.currentTerm);
    WinnerLeads(w, h, n, voters);
  }

  lemma WinnersAnnouncement(w: World, h: History, n: Node)
    requires w.prefix != [] && RecordOk(w, h, n) && n.role == Leader
    requires h.leaders[n.currentTerm].electedLen == |n.log|
    ensures AnnouncementOk(w, h, WindowFrom(n, n.LastIndex() + 1))
  {
    CommittedShrinks(w, h, n.log, Stable(h, n.id), n.currentTerm, n.log, n.commitIdx, n.currentTerm);
  }

  lemma AddAnnouncement(w: World, s: System, h: History, m: AppendArgs)
    requires Inv(w, s, h) && AnnouncementOk(w, h, m)
    ensures Inv(w, s.(announcements := s.announcements + {m}), h)
  {
  }

  lemma LeaderOfOthers(w: World, h: History, requests: set<VoteRequest>, n: Node, voters: set<int>, other: Node)
    requires HistoryOk(w, h) && n.currentTerm !in h.leaders && other.id != n.id
    ensures Uninvolved(h, AddLeader(h, n, voters), requests, requests, other)
  {
    AddLeaderGrows(w, h, n, voters);
  }

  lemma WinStep(w: World, s: System, h: History, i: int, voters: set<int>) returns (h': History)
    requires WellFormed(w) && w.prefix != [] && Inv(w, s, h) && i in w.ids && Elects(s, s.nodes[i], voters)
    ensures var n' := BecomeLeader(s.nodes[i]);
      Inv(w, Put(s, i, n').(announcements := s.announcements + {WindowFrom(n', n'.LastIndex() + 1)}), h')
    ensures Grows(h, h') && h'.applied == h.applied
    ensures s.nodes[i].currentTerm in h'.leaders
    ensures h'.leaders[s.nodes[i].currentTerm].electedLen == |s.nodes[i].log|
  {
    var n := s.nodes[i];
    var n' := BecomeLeader(n);
    WinnerIsFirst(w, s, h, n, voters);
    h' := AddLeader(h, n, voters);
    HistoryWithLeader(w, s, h, n, voters);
    WinnerNodeOk(w, h, s.requests, n, voters);
    forall k | k in w.ids && k != i ensures Uninvolved(h, h', s.requests, s.requests, s.nodes[k]) {
      LeaderOfOthers(w, h, s.requests, n, voters, s.nodes[k]);
    }
    PutKeepsInv(w, s, h, h', i, n');
    WinnersAnnouncement(w, h', n');
    AddAnnouncement(w, Put(s, i, n'), h', WindowFrom(n', n'.LastIndex() + 1));
  }
}
