/**
 The history behind a reachable state of the cluster, and the invariants that tie each node to it. The history is
 only a means of proof: no step reads it.
*/
module History {
  import opened Types
  import opened Sets
  import opened StateMachine
  import opened NodeSpec
  import opened Cluster

  /** A term's elected leader: the length of its log at election, its log so far, and who elected it. */
  datatype Leadership = Leadership(id: int, electedLen: nat, log: seq<Entry>, quorum: set<int>)

  /** A vote with the voter's log when it was cast and what the candidate claimed; late if the term had a leader. */
  datatype Ballot = Ballot(candidate: int, log: seq<Entry>, lastIndex: int, lastTerm: nat, late: bool)

  datatype History = History(
    leaders: map<nat, Leadership>,       // by term
    ballots: map<(nat, int), Ballot>,    // by term and voter
    acked: map<(int, nat), nat>,         // how much of the leader's log of a term a node has held in that term
    stable: map<int, nat>,               // the highest commit index a node has ever had
    applied: map<int, nat>)              // the most entries a node has ever applied

  ghost function Acked(h: History, id: int, t: nat): nat {
    if (id, t) in h.acked then h.acked[(id, t)] else 0
  }

  ghost function Stable(h: History, id: int): nat {
    if id in h.stable then h.stable[id] else 0
  }

  ghost function Applied(h: History, id: int): nat {
    if id in h.applied then h.applied[id] else 0
  }

  /** The first `k` entries of the leader's log of term `t`. */
  ghost function Pre(h: History, t: nat, k: nat): seq<Entry> {
    if t in h.leaders && k <= |h.leaders[t].log| then h.leaders[t].log[..k] else []
  }

  /** The log that the leader of term `t` had when elected. */
  ghost function Elected(h: History, t: nat): seq<Entry> {
    if t in h.leaders then Pre(h, t, h.leaders[t].electedLen) else []
  }

  // ----- logs are made of leaders' entries -----

  /** Up to and including position `p`, the log is a leader's: that of the term at `p`, which created the entry. */
  ghost predicate FromLeader(h: History, log: seq<Entry>, p: nat)
    requires p < |log|
  {
    var t := log[p].term;
    && t in h.leaders
    && h.leaders[t].electedLen <= p < |h.leaders[t].log|
    && log[..p + 1] == Pre(h, t, p + 1)
  }

  ghost predicate Canonical(w: World, h: History, log: seq<Entry>) {
    && w.prefix <= log
    && forall p: nat {:trigger FromLeader(h, log, p)} :: |w.prefix| <= p < |log| ==> FromLeader(h, log, p)
  }

  // ----- leaderships -----

  ghost predicate LeadershipOk(w: World, h: History, t: nat)
    requires t in h.leaders
  {
    var l := h.leaders[t];
    && t > w.term
    && l.id in w.ids
    && |w.prefix| <= l.electedLen <= |l.log|
    && Canonical(w, h, l.log)
    && (forall p: nat :: p < l.electedLen ==> l.log[p].term < t)
    && (forall p: nat :: l.electedLen <= p < |l.log| ==> l.log[p].term == t)
    && (forall p: nat :: p < |l.log| ==> Plain(l.log[p]))
  }

  /** A majority voted for the leader before the term had one, on the strength of the log it was elected with. */
  ghost predicate QuorumOk(w: World, h: History, t: nat)
    requires t in h.leaders
  {
    var l := h.leaders[t];
    && l.quorum <= w.ids
    && |l.quorum| > |w.ids| / 2
    && 0 < l.electedLen <= |l.log|
    && forall v :: v in l.quorum ==>
        && (t, v) in h.ballots
        && var b := h.ballots[(t, v)];
           !b.late && b.candidate == l.id && b.lastIndex == l.electedLen && b.lastTerm == l.log[l.electedLen - 1].term
  }

  // ----- what a node keeps -----

  /** Between terms `t` and `hi` a leader was elected without the first `k` entries of the leader's log of `t`. */
  ghost predicate Overwritten(h: History, t: nat, k: nat, hi: nat) {
    exists u: nat :: t < u < hi && u in h.leaders && !(Pre(h, t, k) <= Elected(h, u))
  }

  /** What a node has acknowledged in terms below `hi` is in `log`, unless a later leader came without it. */
  ghost predicate Kept(h: History, id: int, log: seq<Entry>, hi: nat) {
    forall t: nat, k: nat :: t < hi && t in h.leaders && k <= Acked(h, id, t) ==>
      Pre(h, t, k) <= log || Overwritten(h, t, k, hi)
  }

  ghost predicate BallotOk(w: World, h: History, t: nat, v: int)
    requires (t, v) in h.ballots
  {
    var b := h.ballots[(t, v)];
    && v in w.ids && b.candidate in w.ids
    && Canonical(w, h, b.log) && 0 < |b.log|
    && UpToDate(b.lastTerm, b.lastIndex, b.log[|b.log| - 1].term, |b.log|)
    && (b.late ==> t in h.leaders)
    && (!b.late ==> Kept(h, v, b.log, t))
  }

  /** An acknowledgment in term `t` reaches the log the leader was elected with, and not beyond its log. */
  ghost predicate AckOk(h: History, id: int, t: nat) {
    Acked(h, id, t) > 0 ==> t in h.leaders && h.leaders[t].electedLen <= Acked(h, id, t) <= |h.leaders[t].log|
  }

  /** Who holds an entry has acknowledged it in the entry's own term: entries are only shipped in their own term. */
  ghost predicate AckedInOwnTerm(w: World, h: History, id: int, log: seq<Entry>, len: nat) {
    forall p: nat :: |w.prefix| <= p < len && p < |log| ==> Acked(h, id, log[p].term) >= p + 1
  }

  ghost predicate HistoryOk(w: World, h: History) {
    && (forall t: nat {:trigger LeadershipOk(w, h, t)} :: t in h.leaders ==> LeadershipOk(w, h, t))
    && (forall t: nat {:trigger QuorumOk(w, h, t)} :: t in h.leaders ==> QuorumOk(w, h, t))
    && (forall t: nat, v: int {:trigger BallotOk(w, h, t, v)} :: (t, v) in h.ballots ==> BallotOk(w, h, t, v))
    && (forall id: int, t: nat {:trigger AckOk(h, id, t)} :: AckOk(h, id, t))
    && (forall id: int, t: nat {:trigger AckedInOwnTerm(w, h, id, h.leaders[t].log, Acked(h, id, t))} ::
          t in h.leaders ==> AckedInOwnTerm(w, h, id, h.leaders[t].log, Acked(h, id, t)))
  }

  // ----- commitment -----

  /** The nodes that have held, in term `t`, the first `k` entries of that term's leader. */
  ghost function AckSet(w: World, h: History, t: nat, k: nat): set<int> {
    set n | n in w.ids && Acked(h, n, t) >= k
  }

  ghost predicate Chosen(w: World, h: History, t: nat, k: nat) {
    && t in h.leaders && k <= |h.leaders[t].log|
    && |AckSet(w, h, t, k)| > |w.ids| / 2
  }

  /** The first `k` entries of `log` were chosen in term `t`. */
  ghost predicate ChosenPrefix(w: World, h: History, t: nat, log: seq<Entry>, k: nat) {
    Chosen(w, h, t, k) && k <= |log| && log[..k] == Pre(h, t, k)
  }

  /** The first `k` entries of `log` were chosen in some term up to `hi`. */
  ghost predicate Committed(w: World, h: History, log: seq<Entry>, k: nat, hi: nat) {
    k == 0 || exists t: nat :: t <= hi && ChosenPrefix(w, h, t, log, k)
  }

  // ----- each node against the history -----

  ghost predicate FixedOk(w: World, n: Node) {
    && n.id in w.ids
    && n.peers == w.ids - {n.id}
    && n.config.oldConfig.nodes == w.ids && !n.config.inTransition
    && n.snapshot == None && n.lastSnapshotIndex == 0 && n.lastSnapshotTerm == 0 && n.disk.snapshot == None
    && n.nextIndex.Keys == n.peers && n.matchIndex.Keys == n.peers
    && n.currentTerm >= w.term
    && (n.role != Follower ==> n.currentTerm > w.term)
  }

  /** The node has moved past no ballot of its own, and stands behind the one of its current term. */
  ghost predicate VoterOk(h: History, n: Node) {
    && (forall t: nat :: (t, n.id) in h.ballots ==>
          t < n.currentTerm || (t == n.currentTerm && n.votedFor == h.ballots[(t, n.id)].candidate))
    && (n.role == Candidate ==> (n.currentTerm, n.id) in h.ballots && n.votedFor == n.id)
  }

  /** While the node stands for a term, its log is the one that its requests, and the ballots for it, speak of. */
  ghost predicate CandidateOk(h: History, requests: set<VoteRequest>, n: Node) {
    && (forall m :: m in requests && m.candidate == n.id ==>
          && m.term <= n.currentTerm
          && (m.term == n.currentTerm && n.role == Candidate ==>
                m.lastLogIndex == |n.log| && m.lastLogTerm == n.LastTerm()))
    && (forall t: nat, v: int :: (t, v) in h.ballots && h.ballots[(t, v)].candidate == n.id ==>
          && t <= n.currentTerm
          && (t == n.currentTerm && n.role == Candidate ==>
                h.ballots[(t, v)].lastIndex == |n.log| && h.ballots[(t, v)].lastTerm == n.LastTerm()))
    && (forall t: nat :: t in h.leaders && h.leaders[t].id == n.id ==>
          t <= n.currentTerm && (t == n.currentTerm ==> n.role != Candidate))
  }

  ghost predicate AcksOk(w: World, h: History, n: Node) {
    && (forall t: nat :: Acked(h, n.id, t) > 0 ==> t <= n.currentTerm)
    && AckedInOwnTerm(w, h, n.id, n.log, |n.log|)
    && Kept(h, n.id, n.log, n.currentTerm + 1)
  }

  /** What a leader knows of peer `j` is what `j` has acknowledged in the leader's term. */
  ghost predicate TracksPeer(h: History, n: Node, j: int)
    requires n.currentTerm in h.leaders && j in n.nextIndex && j in n.matchIndex
  {
    && h.leaders[n.currentTerm].electedLen < n.nextIndex[j] <= |n.log| + 1
    && 0 <= n.matchIndex[j] <= Acked(h, j, n.currentTerm)
  }

  /** The leader of a term holds the term's log; it will ship only entries it has created in it. */
  ghost predicate LeaderOk(w: World, h: History, n: Node)
    requires FixedOk(w, n)
  {
    n.role == Leader ==>
      && n.currentTerm in h.leaders
      && h.leaders[n.currentTerm].id == n.id
      && h.leaders[n.currentTerm].log == n.log
      && Acked(h, n.id, n.currentTerm) == |n.log|
      && forall j :: j in n.peers ==> TracksPeer(h, n, j)
  }

  ghost predicate CommitOk(w: World, h: History, n: Node) {
    && n.lastApplied <= n.commitIdx <= Stable(h, n.id) <= |n.log|
    && Committed(w, h, n.log, Stable(h, n.id), n.currentTerm)
  }

  /**
   The store is what the applied entries lead to, except for keys that entries still to be applied again will settle:
   a restarted node applies its log from the start, on the store that it has saved.
  */
  ghost predicate Replaying(log: seq<Entry>, store: Data, again: nat, most: nat)
    requires again <= most <= |log|
  {
    SameUnlessSettled(log[again..most], store, Fold(log[..again], map[]))
  }

  ghost predicate StoreOk(h: History, n: Node) {
    && n.lastApplied <= Applied(h, n.id) <= Stable(h, n.id)
    && Applied(h, n.id) <= |n.log|
    && Replaying(n.log, n.store, n.lastApplied, Applied(h, n.id))
    && n.disk.store == n.store
  }

  /** What a node holds, has acknowledged, leads, has committed and has applied. */
  ghost predicate RecordOk(w: World, h: History, n: Node) {
    && FixedOk(w, n)
    && Canonical(w, h, n.log)
    && AcksOk(w, h, n)
    && LeaderOk(w, h, n)
    && CommitOk(w, h, n)
    && StoreOk(h, n)
  }

  ghost predicate NodeOk(w: World, h: History, requests: set<VoteRequest>, n: Node) {
    RecordOk(w, h, n) && VoterOk(h, n) && CandidateOk(h, requests, n)
  }

  // ----- the network against the history -----

  ghost predicate GrantOk(h: History, g: Grant) {
    (g.term, g.voter) in h.ballots && h.ballots[(g.term, g.voter)].candidate == g.candidate
  }

  /** An announcement is an empty append at the end of the log its leader was elected with. */
  ghost predicate AnnouncementOk(w: World, h: History, m: AppendArgs) {
    && m.term in h.leaders
    && m.leaderId == h.leaders[m.term].id
    && m.entries == []
    && m.prevLogIndex == h.leaders[m.term].electedLen > 0
    && m.prevLogIndex <= |h.leaders[m.term].log|
    && m.prevLogTerm == h.leaders[m.term].log[m.prevLogIndex - 1].term
    && 0 <= m.leaderCommit <= m.prevLogIndex
    && Committed(w, h, h.leaders[m.term].log, m.leaderCommit, m.term)
  }

  ghost predicate Inv(w: World, s: System, h: History) {
    && s.nodes.Keys == w.ids
    && HistoryOk(w, h)
    && (forall i :: i in w.ids ==> s.nodes[i].id == i && NodeOk(w, h, s.requests, s.nodes[i]))
    && (forall m :: m in s.requests ==> m.candidate in w.ids)
    && (forall g {:trigger GrantOk(h, g)} :: g in s.grants ==> GrantOk(h, g))
    && (forall m {:trigger AnnouncementOk(w, h, m)} :: m in s.announcements ==> AnnouncementOk(w, h, m))
  }
}
