/** The history only grows, and what grows out of a step's way stays true. */
module Growth {
  import opened Types
  import opened Sets
  import opened NodeSpec
  import opened Cluster
  import opened History

  ghost predicate SameLeadership(l: Leadership, l': Leadership) {
    l'.id == l.id && l'.electedLen == l.electedLen && l'.quorum == l.quorum && l.log <= l'.log
  }

  /** `h'` is `h` with more in it. */
  ghost predicate Grows(h: History, h': History) {
    && (forall t :: t in h.leaders ==> t in h'.leaders && SameLeadership(h.leaders[t], h'.leaders[t]))
    && (forall b :: b in h.ballots ==> b in h'.ballots && h'.ballots[b] == h.ballots[b])
    && (forall id: int, t: nat :: Acked(h, id, t) <= Acked(h', id, t))
    && (forall id: int :: Stable(h, id) <= Stable(h', id))
    && (forall id: int :: Applied(h, id) <= Applied(h', id))
  }

  lemma GrowsTransitively(a: History, b: History, c: History)
    requires Grows(a, b) && Grows(b, c)
    ensures Grows(a, c)
  {
    forall t | t in a.leaders ensures t in c.leaders && SameLeadership(a.leaders[t], c.leaders[t]) {
      assert SameLeadership(a.leaders[t], b.leaders[t]) && SameLeadership(b.leaders[t], c.leaders[t]);
    }
    forall id: int, t: nat ensures Acked(a, id, t) <= Acked(c, id, t) {
      assert Acked(a, id, t) <= Acked(b, id, t);
    }
    forall id: int ensures Stable(a, id) <= Stable(c, id) && Applied(a, id) <= Applied(c, id) {
      assert Stable(a, id) <= Stable(b, id) && Applied(a, id) <= Applied(b, id);
    }
  }

  lemma PreGrows(h: History, h': History, t: nat, k: nat)
    requires Grows(h, h') && t in h.leaders && k <= |h.leaders[t].log|
    ensures Pre(h', t, k) == Pre(h, t, k) && k <= |h'.leaders[t].log|
  {
    assert SameLeadership(h.leaders[t], h'.leaders[t]);
  }

  lemma ElectedGrows(w: World, h: History, h': History, t: nat)
    requires Grows(h, h') && HistoryOk(w, h) && t in h.leaders
    ensures Elected(h', t) == Elected(h, t)
  {
    assert LeadershipOk(w, h, t) && SameLeadership(h.leaders[t], h'.leaders[t]);
    PreGrows(h, h', t, h.leaders[t].electedLen);
  }

  lemma CanonicalGrows(w: World, h: History, h': History, log: seq<Entry>)
    requires Grows(h, h') && Canonical(w, h, log)
    ensures Canonical(w, h', log)
  {
    forall p: nat | |w.prefix| <= p < |log| ensures FromLeader(h', log, p) {
      assert FromLeader(h, log, p);
      assert SameLeadership(h.leaders[log[p].term], h'.leaders[log[p].term]);
      PreGrows(h, h', log[p].term, p + 1);
    }
  }

  lemma KeptGrows(w: World, h: History, h': History, id: int, log: seq<Entry>, hi: nat)
    requires Grows(h, h') && HistoryOk(w, h) && Kept(h, id, log, hi)
    requires forall t: nat :: t < hi ==> Acked(h', id, t) == Acked(h, id, t)
    ensures Kept(h', id, log, hi)
  {
    forall t: nat, k: nat | t < hi && t in h'.leaders && k <= Acked(h', id, t)
      ensures Pre(h', t, k) <= log || Overwritten(h', t, k, hi)
    {
      assert AckOk(h, id, t);
      if t in h.leaders {
        assert LeadershipOk(w, h, t);
        PreGrows(h, h', t, k);
        if Overwritten(h, t, k, hi) {
          var u: nat :| t < u < hi && u in h.leaders && !(Pre(h, t, k) <= Elected(h, u));
          assert SameLeadership(h.leaders[u], h'.leaders[u]);
          ElectedGrows(w, h, h', u);
        }
      }
    }
  }

  lemma ChosenGrows(w: World, h: History, h': History, t: nat, k: nat)
    requires Grows(h, h') && Chosen(w, h, t, k)
    ensures Chosen(w, h', t, k) && Pre(h', t, k) == Pre(h, t, k)
  {
    PreGrows(h, h', t, k);
    assert SameLeadership(h.leaders[t], h'.leaders[t]);
    forall n | n in AckSet(w, h, t, k) ensures n in AckSet(w, h', t, k) {
      assert Acked(h, n, t) <= Acked(h', n, t);
    }
    SubsetSize(AckSet(w, h, t, k), AckSet(w, h', t, k));
  }

  lemma CommittedGrows(w: World, h: History, h': History, log: seq<Entry>, k: nat, hi: nat)
    requires Grows(h, h') && Committed(w, h, log, k, hi)
    ensures Committed(w, h', log, k, hi)
  {
    if k > 0 {
      var t: nat :| t <= hi && ChosenPrefix(w, h, t, log, k);
      ChosenGrows(w, h, h', t, k);
      assert ChosenPrefix(w, h', t, log, k);
    }
  }

  /** A shorter prefix of what is committed is committed, also as part of another log that agrees with it. */
  lemma CommittedShrinks(w: World, h: History, log: seq<Entry>, k: nat, hi: nat, log': seq<Entry>, k': nat, hi': nat)
    requires Committed(w, h, log, k, hi) && k' <= k <= |log| && k' <= |log'| && hi <= hi' && log[..k'] == log'[..k']
    ensures Committed(w, h, log', k', hi')
  {
    if k' > 0 {
      var t: nat :| t <= hi && ChosenPrefix(w, h, t, log, k);
      SubsetSize(AckSet(w, h, t, k), AckSet(w, h, t, k'));
      assert Pre(h, t, k') == Pre(h, t, k)[..k'] == log[..k][..k'] == log[..k'];
      assert ChosenPrefix(w, h, t, log', k');
    }
  }

  // ----- nodes and messages out of the way of a step -----

  /** The candidate's part in a ballot for node `n`. */
  ghost predicate SpeaksOf(n: Node, t: nat, b: Ballot) {
    t <= n.currentTerm &&
    (t == n.currentTerm && n.role == Candidate ==> b.lastIndex == |n.log| && b.lastTerm == n.LastTerm())
  }

  /** What the history grows by does not concern node `n`. */
  ghost predicate Uninvolved(h: History, h': History,
                             requests: set<VoteRequest>, requests': set<VoteRequest>, n: Node)
  {
    && Grows(h, h')
    && (forall t: nat :: Acked(h', n.id, t) == Acked(h, n.id, t))
    && Stable(h', n.id) == Stable(h, n.id) && Applied(h', n.id) == Applied(h, n.id)
    && (forall t: nat :: (t, n.id) in h'.ballots ==> (t, n.id) in h.ballots)
    && (forall t: nat, v: int ::
          (t, v) in h'.ballots && (t, v) !in h.ballots && h'.ballots[(t, v)].candidate == n.id ==>
            SpeaksOf(n, t, h'.ballots[(t, v)]))
    && (forall t: nat :: t in h'.leaders && h'.leaders[t].id == n.id ==>
          t in h.leaders && h'.leaders[t] == h.leaders[t])
    && (forall m :: m in requests' && m.candidate == n.id ==> m in requests)
  }

  lemma AcksGrow(w: World, h: History, h': History, requests: set<VoteRequest>, requests': set<VoteRequest>, n: Node)
    requires HistoryOk(w, h) && AcksOk(w, h, n) && Uninvolved(h, h', requests, requests', n)
    ensures AcksOk(w, h', n)
  {
    KeptGrows(w, h, h', n.id, n.log, n.currentTerm + 1);
  }

  lemma VotesGrow(w: World, h: History, h': History, requests: set<VoteRequest>, requests': set<VoteRequest>, n: Node)
    requires VoterOk(h, n) && CandidateOk(h, requests, n) && Uninvolved(h, h', requests, requests', n)
    ensures VoterOk(h', n) && CandidateOk(h', requests', n)
  {
    forall t: nat, v: int | (t, v) in h'.ballots && h'.ballots[(t, v)].candidate == n.id
      ensures SpeaksOf(n, t, h'.ballots[(t, v)])
    {
    }
  }

  lemma LeaderGrows(w: World, h: History, h': History, requests: set<VoteRequest>, requests': set<VoteRequest>, n: Node)
    requires FixedOk(w, n) && LeaderOk(w, h, n) && Uninvolved(h, h', requests, requests', n)
    ensures LeaderOk(w, h', n)
  {
    if n.role == Leader {
      assert SameLeadership(h.leaders[n.currentTerm], h'.leaders[n.currentTerm]);
      forall j | j in n.peers ensures TracksPeer(h', n, j) {
        assert TracksPeer(h, n, j);
        assert Acked(h, j, n.currentTerm) <= Acked(h', j, n.currentTerm);
      }
    }
  }

  lemma NodeGrows(w: World, h: History, h': History, requests: set<VoteRequest>, requests': set<VoteRequest>, n: Node)
    requires HistoryOk(w, h) && NodeOk(w, h, requests, n) && Uninvolved(h, h', requests, requests', n)
    ensures NodeOk(w, h', requests', n)
  {
    CanonicalGrows(w, h, h', n.log);
    VotesGrow(w, h, h', requests, requests', n);
    AcksGrow(w, h, h', requests, requests', n);
    LeaderGrows(w, h, h', requests, requests', n);
    CommittedGrows(w, h, h', n.log, Stable(h, n.id), n.currentTerm);
  }

  lemma AnnouncementGrows(w: World, h: History, h': History, m: AppendArgs)
    requires HistoryOk(w, h) && Grows(h, h') && AnnouncementOk(w, h, m)
    ensures AnnouncementOk(w, h', m)
  {
    var log, log' := h.leaders[m.term].log, h'.leaders[m.term].log;
    assert SameLeadership(h.leaders[m.term], h'.leaders[m.term]);
    CommittedGrows(w, h, h', log, m.leaderCommit, m.term);
    CommittedShrinks(w, h', log, m.leaderCommit, m.term, log', m.leaderCommit, m.term);
  }

  // ----- the history itself -----

  ghost predicate AcksFrozen(h: History, h': History, t: nat, v: int) {
    forall u: nat :: u < t ==> Acked(h', v, u) == Acked(h, v, u)
  }

  /** A grown history is in order when what is new in it is, and no voter's earlier acknowledgments changed. */
  lemma HistoryGrows(w: World, h: History, h': History)
    requires HistoryOk(w, h) && Grows(h, h')
    requires forall t :: t in h'.leaders && (t in h.leaders ==> h'.leaders[t] != h.leaders[t]) ==>
               LeadershipOk(w, h', t) && QuorumOk(w, h', t)
    requires forall t: nat, v: int :: (t, v) in h'.ballots && (t, v) !in h.ballots ==> BallotOk(w, h', t, v)
    requires forall t: nat, v: int :: (t, v) in h.ballots ==> AcksFrozen(h, h', t, v)
    requires forall id: int, t: nat :: Acked(h', id, t) != Acked(h, id, t) ==>
               AckOk(h', id, t) && (t in h'.leaders ==> AckedInOwnTerm(w, h', id, h'.leaders[t].log, Acked(h', id, t)))
    ensures HistoryOk(w, h')
  {
    forall t | t in h'.leaders ensures LeadershipOk(w, h', t) && QuorumOk(w, h', t) {
      if t in h.leaders && h'.leaders[t] == h.leaders[t] {
        assert LeadershipOk(w, h, t) && QuorumOk(w, h, t);
        CanonicalGrows(w, h, h', h.leaders[t].log);
      }
    }
    forall t: nat, v: int | (t, v) in h'.ballots ensures BallotOk(w, h', t, v) {
      if (t, v) in h.ballots {
        assert BallotOk(w, h, t, v);
        var b := h.ballots[(t, v)];
        CanonicalGrows(w, h, h', b.log);
        assert AcksFrozen(h, h', t, v);
        if !b.late { KeptGrows(w, h, h', v, b.log, t); }
      }
    }
    forall id: int, t: nat ensures AckOk(h', id, t) {
      assert AckOk(h, id, t);
      if t in h.leaders { assert SameLeadership(h.leaders[t], h'.leaders[t]); }
    }
    forall id: int, t: nat | t in h'.leaders
      ensures AckedInOwnTerm(w, h', id, h'.leaders[t].log, Acked(h', id, t))
    {
      if Acked(h', id, t) == Acked(h, id, t) {
        assert AckOk(h, id, t);
        if t in h.leaders {
          assert SameLeadership(h.leaders[t], h'.leaders[t]);
          assert AckedInOwnTerm(w, h, id, h.leaders[t].log, Acked(h, id, t));
        }
      }
    }
  }
}
