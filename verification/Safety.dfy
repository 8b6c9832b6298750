/** What the history invariants say about one state: logs match, and chosen entries are in every later leader's log. */
module Safety {
  import opened Types
  import opened Sets
  import opened NodeSpec
  import opened Cluster
  import opened History

  /** Log matching: two canonical logs with the same term at a position are identical up to it. */
  lemma LogMatching(w: World, h: History, a: seq<Entry>, b: seq<Entry>, p: nat)
    requires Canonical(w, h, a) && Canonical(w, h, b)
    requires p < |a| && p < |b| && a[p].term == b[p].term
    ensures a[..p + 1] == b[..p + 1]
  {
    if p < |w.prefix| {
      assert a[..p + 1] == w.prefix[..p + 1] == b[..p + 1];
    } else {
      assert FromLeader(h, a, p) && FromLeader(h, b, p);
    }
  }

  /** A prefix that stops at an entry of term `t` lies within what the leader of `t` was elected with or created. */
  lemma PrefixOfPre(h: History, t: nat, j: nat, k: nat)
    requires t in h.leaders && j <= k <= |h.leaders[t].log|
    ensures Pre(h, t, j) <= Pre(h, t, k)
    ensures Pre(h, t, k)[..j] == Pre(h, t, j)
  {
  }

  /** Terms along a canonical log: no entry has a later term than the last one. */
  lemma LastTermIsGreatest(w: World, h: History, log: seq<Entry>, p: nat)
    requires HistoryOk(w, h) && WellFormed(w) && Canonical(w, h, log) && p < |log|
    ensures log[p].term <= log[|log| - 1].term || |log| <= |w.prefix|
  {
    if |log| > |w.prefix| {
      assert FromLeader(h, log, |log| - 1);
      var t := log[|log| - 1].term;
      assert LeadershipOk(w, h, t);
      assert log == Pre(h, t, |log|);
      assert log[p] == h.leaders[t].log[p];
    }
  }

  /**
   The heart of leader completeness. If a majority has held, in term `t`, the entries up to one that was created in
   `t`, then every leader of a later term was elected with them: some voter had acknowledged them before it voted,
   still had them unless an earlier leader came without them, and the new leader's log was no less up to date.
  */
  lemma {:induction false} ChosenSurvives(w: World, h: History, t: nat, k: nat, later: nat)
    requires WellFormed(w) && HistoryOk(w, h) && Chosen(w, h, t, k)
    requires |w.prefix| < k && h.leaders[t].log[k - 1].term == t
    requires t < later && later in h.leaders
    ensures Pre(h, t, k) <= Elected(h, later)
    decreases later
  {
    assert QuorumOk(w, h, later);
    var voter := MajoritiesMeet(w.ids, AckSet(w, h, t, k), h.leaders[later].quorum);
    var ballot := h.ballots[(later, voter)];
    assert BallotOk(w, h, later, voter);
    if Overwritten(h, t, k, later) {
      var u: nat :| t < u < later && u in h.leaders && !(Pre(h, t, k) <= Elected(h, u));
      ChosenSurvives(w, h, t, k, u);
      assert false;
    }
    assert Pre(h, t, k) <= ballot.log;
    VoterWasNoFurther(w, h, t, k, later, ballot.log);
  }

  /** A leader elected by a voter that had the entries has them too. */
  lemma {:induction false} VoterWasNoFurther(w: World, h: History, t: nat, k: nat, later: nat, log: seq<Entry>)
    requires WellFormed(w) && HistoryOk(w, h) && Chosen(w, h, t, k)
    requires |w.prefix| < k && h.leaders[t].log[k - 1].term == t
    requires t < later && later in h.leaders
    requires Canonical(w, h, log) && Pre(h, t, k) <= log
    requires 0 < h.leaders[later].electedLen <= |h.leaders[later].log| && 0 < |log|
    requires UpToDate(h.leaders[later].log[h.leaders[later].electedLen - 1].term, h.leaders[later].electedLen,
                      log[|log| - 1].term, |log|)
    ensures Pre(h, t, k) <= Elected(h, later)
    decreases later, 0
  {
    var l := h.leaders[later];
    assert LeadershipOk(w, h, later);
    var last := l.log[l.electedLen - 1].term;
    var mine := log[|log| - 1].term;
    assert log[k - 1] == h.leaders[t].log[k - 1];
    LastTermIsGreatest(w, h, log, k - 1);
    assert t <= mine <= last < later;
    assert LeadershipOk(w, h, t);
    assert l.electedLen > |w.prefix|;
    assert FromLeader(h, l.log, l.electedLen - 1);
    assert Elected(h, later) == Pre(h, last, l.electedLen);
    if last == mine {
      assert FromLeader(h, log, |log| - 1);
      assert log == Pre(h, mine, |log|);
      PrefixOfPre(h, last, |log|, l.electedLen);
    } else {
      ChosenSurvives(w, h, t, k, last);
      PrefixOfPre(h, last, h.leaders[last].electedLen, l.electedLen);
    }
  }

  /** Entries chosen in term `t` were chosen in the term of the last of them: each holder got it in that term. */
  lemma ChosenInOwnTerm(w: World, h: History, t: nat, k: nat) returns (s: nat)
    requires WellFormed(w) && HistoryOk(w, h) && Chosen(w, h, t, k) && |w.prefix| < k
    ensures s <= t && Chosen(w, h, s, k) && Pre(h, s, k) == Pre(h, t, k) && h.leaders[s].log[k - 1].term == s
  {
    var log := h.leaders[t].log;
    s := log[k - 1].term;
    assert LeadershipOk(w, h, t) && FromLeader(h, log, k - 1);
    assert LeadershipOk(w, h, s);
    forall n | n in AckSet(w, h, t, k) ensures n in AckSet(w, h, s, k) {
      assert AckedInOwnTerm(w, h, n, log, Acked(h, n, t));
    }
    SubsetSize(AckSet(w, h, t, k), AckSet(w, h, s, k));
  }

  /** Leader completeness for one state: what was chosen in a term is what every later leader was elected with. */
  lemma LaterLeadersHaveChosen(w: World, h: History, t: nat, k: nat, later: nat)
    requires WellFormed(w) && HistoryOk(w, h) && Chosen(w, h, t, k)
    requires t < later && later in h.leaders
    ensures Pre(h, t, k) <= Elected(h, later)
  {
    assert LeadershipOk(w, h, t) && LeadershipOk(w, h, later);
    if k <= |w.prefix| {
      assert Pre(h, t, k) == w.prefix[..k];
    } else {
      var s := ChosenInOwnTerm(w, h, t, k);
      ChosenSurvives(w, h, s, k, later);
    }
  }

  /** A committed prefix of some log is in the log of every leader of its term or a later one. */
  lemma CommittedIsInLeader(w: World, h: History, log: seq<Entry>, k: nat, hi: nat, later: nat)
    requires WellFormed(w) && HistoryOk(w, h) && k <= |log| && Committed(w, h, log, k, hi)
    requires hi <= later && later in h.leaders
    ensures k <= |h.leaders[later].log| && log[..k] == h.leaders[later].log[..k]
  {
    if k > 0 {
      var t: nat :| t <= hi && ChosenPrefix(w, h, t, log, k);
      if t < later { LaterLeadersHaveChosen(w, h, t, k, later); }
    }
  }

  /** Two chosen prefixes agree as far as the shorter one goes. */
  lemma ChosenPrefixesAgree(w: World, h: History, t: nat, a: seq<Entry>, j: nat, u: nat, b: seq<Entry>, k: nat)
    requires WellFormed(w) && HistoryOk(w, h)
    requires ChosenPrefix(w, h, t, a, j) && ChosenPrefix(w, h, u, b, k) && j <= k
    ensures a[..j] == b[..j]
  {
    if t < u {
      LaterLeadersHaveChosen(w, h, t, j, u);
      assert LeadershipOk(w, h, u);
      assert a[..j] == b[..k][..j];
    } else if u < t {
      LaterLeadersHaveChosen(w, h, u, k, t);
      assert Pre(h, u, k) <= h.leaders[t].log;
    }
  }

  /** Whatever two nodes have committed agrees as far as the shorter commitment goes. */
  lemma CommittedAgree(w: World, h: History, a: seq<Entry>, j: nat, hiA: nat, b: seq<Entry>, k: nat, hiB: nat)
    requires WellFormed(w) && HistoryOk(w, h)
    requires Committed(w, h, a, j, hiA) && Committed(w, h, b, k, hiB) && j <= |a| && k <= |b| && j <= k
    ensures a[..j] == b[..j]
  {
    if 0 < j {
      var t: nat :| t <= hiA && ChosenPrefix(w, h, t, a, j);
      var u: nat :| u <= hiB && ChosenPrefix(w, h, u, b, k);
      ChosenPrefixesAgree(w, h, t, a, j, u, b, k);
    }
  }
}
