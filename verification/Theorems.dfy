/** The guarantees of the cluster, for every run and every pair of its states. No statement mentions a history. */
module Theorems {
  import opened Types
  import opened StateMachine
  import opened NodeSpec
  import opened Cluster
  import opened History
  import opened Safety
  import opened Growth
  import opened Elections
  import opened Replication
  import opened Runs
  import CrashRuns

  /** A run of a well-formed world whose nodes all start from the same non-empty log. */
  ghost predicate Run(w: World, states: seq<System>, events: seq<Event>) {
    WellFormed(w) && w.prefix != [] && IsRun(w, states, events)
  }

  // ----- any state of a run in the light of any later history -----

  /** What a node holds, leads and has committed, stated against a history that has grown since. */
  ghost predicate SeenFrom(w: World, h: History, n: Node) {
    && Canonical(w, h, n.log)
    && n.lastApplied <= n.commitIdx <= |n.log|
    && Committed(w, h, n.log, n.commitIdx, n.currentTerm)
    && (n.role == Leader ==>
          && n.currentTerm in h.leaders && h.leaders[n.currentTerm].id == n.id
          && h.leaders[n.currentTerm].electedLen <= |n.log| && n.log <= h.leaders[n.currentTerm].log)
  }

  lemma NodeSeenFrom(w: World, h: History, h': History, requests: set<VoteRequest>, n: Node)
    requires HistoryOk(w, h) && NodeOk(w, h, requests, n) && Grows(h, h')
    ensures SeenFrom(w, h', n)
  {
    CanonicalGrows(w, h, h', n.log);
    CommittedShrinks(w, h, n.log, Stable(h, n.id), n.currentTerm, n.log, n.commitIdx, n.currentTerm);
    CommittedGrows(w, h, h', n.log, n.commitIdx, n.currentTerm);
    if n.role == Leader {
      assert LeadershipOk(w, h, n.currentTerm);
      assert SameLeadership(h.leaders[n.currentTerm], h'.leaders[n.currentTerm]);
    }
  }

  lemma StateNodeSeenFrom(w: World, s: System, h: History, h': History, a: int)
    requires Inv(w, s, h) && Grows(h, h') && a in w.ids
    ensures s.nodes.Keys == w.ids && s.nodes[a].id == a && SeenFrom(w, h', s.nodes[a])
  {
    NodeSeenFrom(w, h, h', s.requests, s.nodes[a]);
  }

  /** One history against which a node of one state and a node of another can both be read. */
  lemma CommonHistory(w: World, states: seq<System>, events: seq<Event>, x: nat, a: int, y: nat, b: int)
      returns (h: History)
    requires Run(w, states, events) && x < |states| && y < |states| && a in w.ids && b in w.ids
    ensures HistoryOk(w, h)
    ensures states[x].nodes.Keys == w.ids && states[x].nodes[a].id == a && SeenFrom(w, h, states[x].nodes[a])
    ensures states[y].nodes.Keys == w.ids && states[y].nodes[b].id == b && SeenFrom(w, h, states[y].nodes[b])
  {
    var hs := RunHasHistories(w, states, events);
    var last := |events|;
    assert Inv(w, states[last], hs[last]) && Inv(w, states[x], hs[x]) && Inv(w, states[y], hs[y]);
    HistoriesGrow(w, states, events, hs, x, last);
    HistoriesGrow(w, states, events, hs, y, last);
    h := hs[last];
    StateNodeSeenFrom(w, states[x], hs[x], h, a);
    StateNodeSeenFrom(w, states[y], hs[y], h, b);
  }

  /** Every state of a run has exactly the world's nodes. */
  lemma SameNodes(w: World, states: seq<System>, events: seq<Event>, x: nat)
    requires Run(w, states, events) && x < |states|
    ensures states[x].nodes.Keys == w.ids
  {
    var hs := RunHasHistories(w, states, events);
    assert Inv(w, states[x], hs[x]);
  }

  // ----- the theorems -----

  /**
   Log matching and unique creation: wherever and whenever two logs have entries of the same term at the same
   position, they are the same entry, after the same entries.
  */
  lemma LogsMatch(w: World, states: seq<System>, events: seq<Event>, x: nat, a: int, y: nat, b: int, p: nat)
    requires Run(w, states, events) && HasNode(states, x, a) && HasNode(states, y, b)
    requires p < |states[x].nodes[a].log| && p < |states[y].nodes[b].log|
    requires states[x].nodes[a].log[p].term == states[y].nodes[b].log[p].term
    ensures states[x].nodes[a].log[..p + 1] == states[y].nodes[b].log[..p + 1]
  {
    SameNodes(w, states, events, x);
    SameNodes(w, states, events, y);
    var h := CommonHistory(w, states, events, x, a, y, b);
    LogMatching(w, h, states[x].nodes[a].log, states[y].nodes[b].log, p);
  }

  /**
   Leader completeness: what a leader has committed is in the log of every leader of a later term, whether that
   leader comes before or after in the run.
  */
  lemma LeaderCompleteness(w: World, states: seq<System>, events: seq<Event>, x: nat, a: int, y: nat, b: int)
    requires Run(w, states, events) && HasNode(states, x, a) && HasNode(states, y, b)
    requires states[x].nodes[a].role == Leader && states[y].nodes[b].role == Leader
    requires states[x].nodes[a].currentTerm < states[y].nodes[b].currentTerm
    ensures var k := states[x].nodes[a].commitIdx;
      && k <= |states[x].nodes[a].log| && k <= |states[y].nodes[b].log|
      && states[y].nodes[b].log[..k] == states[x].nodes[a].log[..k]
  {
    SameNodes(w, states, events, x);
    SameNodes(w, states, events, y);
    var h := CommonHistory(w, states, events, x, a, y, b);
    var n, l := states[x].nodes[a], states[y].nodes[b];
    CommittedIsElected(w, h, n, l.currentTerm);
    assert Elected(h, l.currentTerm) <= l.log;
  }

  /** What a node has committed is in the log that a leader of a later term was elected with. */
  lemma CommittedIsElected(w: World, h: History, n: Node, later: nat)
    requires WellFormed(w) && HistoryOk(w, h) && SeenFrom(w, h, n) && n.currentTerm < later && later in h.leaders
    ensures n.commitIdx <= |Elected(h, later)| && n.log[..n.commitIdx] == Elected(h, later)[..n.commitIdx]
    ensures |Elected(h, later)| == h.leaders[later].electedLen && Elected(h, later) <= h.leaders[later].log
  {
    assert LeadershipOk(w, h, later);
    if n.commitIdx > 0 {
      var t: nat :| t <= n.currentTerm && ChosenPrefix(w, h, t, n.log, n.commitIdx);
      LaterLeadersHaveChosen(w, h, t, n.commitIdx, later);
    }
  }

  /** State machine safety, for logs: whatever two nodes have ever committed at an index is the same. */
  lemma StateMachineSafety(w: World, states: seq<System>, events: seq<Event>, x: nat, a: int, y: nat, b: int, k: nat)
    requires Run(w, states, events) && HasNode(states, x, a) && HasNode(states, y, b)
    requires k <= states[x].nodes[a].commitIdx && k <= states[y].nodes[b].commitIdx
    ensures k <= |states[x].nodes[a].log| && k <= |states[y].nodes[b].log|
    ensures states[x].nodes[a].log[..k] == states[y].nodes[b].log[..k]
  {
    SameNodes(w, states, events, x);
    SameNodes(w, states, events, y);
    var h := CommonHistory(w, states, events, x, a, y, b);
    CommittedLogsAgree(w, h, states[x].nodes[a], states[y].nodes[b], k);
  }

  lemma CommittedLogsAgree(w: World, h: History, n: Node, m: Node, k: nat)
    requires WellFormed(w) && HistoryOk(w, h) && SeenFrom(w, h, n) && SeenFrom(w, h, m)
    requires k <= n.commitIdx && k <= m.commitIdx
    ensures n.log[..k] == m.log[..k]
  {
    CommittedShrinks(w, h, n.log, n.commitIdx, n.currentTerm, n.log, k, n.currentTerm);
    CommittedShrinks(w, h, m.log, m.commitIdx, m.currentTerm, m.log, k, m.currentTerm);
    CommittedAgree(w, h, n.log, k, n.currentTerm, m.log, k, m.currentTerm);
  }

  // ----- committed prefixes over time -----

  /** The indices of a node are in order in every state: applied, committed, present. */
  lemma IndicesInOrder(w: World, states: seq<System>, events: seq<Event>, x: nat, a: int)
    requires Run(w, states, events) && HasNode(states, x, a)
    ensures states[x].nodes[a].lastApplied <= states[x].nodes[a].commitIdx <= states[x].nodes[a].LastIndex()
  {
    SameNodes(w, states, events, x);
    var h := CommonHistory(w, states, events, x, a, x, a);
  }

  /** Committed prefix stability: what a node has committed stays in its log, through every later step. */
  lemma CommittedPrefixStability(w: World, states: seq<System>, events: seq<Event>, x: nat, y: nat, a: int)
    requires Run(w, states, events) && HasNode(states, x, a) && HasNode(states, y, a) && x <= y
    ensures states[x].nodes[a].commitIdx <= |states[x].nodes[a].log|
    ensures states[x].nodes[a].log[..states[x].nodes[a].commitIdx] <= states[y].nodes[a].log
  {
    SameNodes(w, states, events, x);
    SameNodes(w, states, events, y);
    var hs := RunHasHistories(w, states, events);
    assert Inv(w, states[x], hs[x]) && Inv(w, states[y], hs[y]);
    HistoriesGrow(w, states, events, hs, x, y);
    CommittedStays(w, hs[x], hs[y], states[x].requests, states[y].requests, states[x].nodes[a], states[y].nodes[a]);
  }

  lemma CommittedStays(w: World, h: History, h': History, requests: set<VoteRequest>, requests': set<VoteRequest>,
        n: Node, n': Node)
    requires WellFormed(w) && HistoryOk(w, h) && HistoryOk(w, h') && Grows(h, h') && n.id == n'.id
    requires NodeOk(w, h, requests, n) && NodeOk(w, h', requests', n')
    ensures n.commitIdx <= |n.log| && n.log[..n.commitIdx] <= n'.log
  {
    NodeSeenFrom(w, h, h', requests, n);
    assert n.commitIdx <= Stable(h, n.id) <= Stable(h', n.id);
    CommittedAgree(w, h', n.log, n.commitIdx, n.currentTerm, n'.log, Stable(h', n.id), n'.currentTerm);
  }

  /** An append lowers a commit index only to the last index it leaves. */
  lemma AppendCommit(f: Node, m: AppendArgs)
    ensures var f' := AppendEntries(f, m).0; f'.commitIdx >= f.commitIdx || f'.commitIdx == f'.LastIndex()
  {
  }

  lemma SettleCommit(n: Node, j: int, reply: AppendReply)
    ensures Settle(n, j, reply).commitIdx >= n.commitIdx
  {
  }

  /** Away from restarts no step lowers a commit index, or else it lowers it to the node's last index. */
  lemma StepCommit(w: World, s: System, e: Event, a: int)
    requires Enabled(w, s, e) && a in w.ids && (e.Restart? ==> e.i != a)
    requires forall i :: i in w.ids ==> s.nodes[i].id == i && i !in s.nodes[i].peers
    ensures a in Do(w, s, e).nodes
    ensures var n' := Do(w, s, e).nodes[a]; n'.commitIdx >= s.nodes[a].commitIdx || n'.commitIdx == n'.LastIndex()
  {
    match e
    case Announced(j, m) => AppendCommit(s.nodes[j], m);
    case Exchange(i, j, _) =>
      var reply := Deliver(s.nodes[i], s.nodes[j]).1;
      SettleCommit(s.nodes[i], j, reply);
      if Outbound(s.nodes[i], j).SendAppend? { AppendCommit(s.nodes[j], Outbound(s.nodes[i], j).args); }
    case _ =>
  }

  /** A commit index never falls, except that a restarted node begins again at zero. */
  lemma CommitNeverFalls(w: World, states: seq<System>, events: seq<Event>, x: nat, a: int)
    requires Run(w, states, events) && x < |events| && HasNode(states, x, a)
    requires events[x].Restart? ==> events[x].i != a
    ensures HasNode(states, x + 1, a)
    ensures states[x].nodes[a].commitIdx <= states[x + 1].nodes[a].commitIdx
  {
    SameNodes(w, states, events, x);
    SameNodes(w, states, events, x + 1);
    assert Next(w, states[x], events[x], states[x + 1]);
    forall i | i in w.ids ensures states[x].nodes[i].id == i && i !in states[x].nodes[i].peers {
      PeersAreOthers(w, states, events, x, i);
    }
    StepCommit(w, states[x], events[x], a);
    CommittedPrefixStability(w, states, events, x, x + 1, a);
    IndicesInOrder(w, states, events, x, a);
    NoSnapshots(w, states, events, x + 1, a);
  }

  lemma PeersAreOthers(w: World, states: seq<System>, events: seq<Event>, x: nat, i: int)
    requires Run(w, states, events) && x < |states| && i in w.ids
    ensures i in states[x].nodes && states[x].nodes[i].id == i && i !in states[x].nodes[i].peers
  {
    var hs := RunHasHistories(w, states, events);
    assert Inv(w, states[x], hs[x]);
  }

  lemma NoSnapshots(w: World, states: seq<System>, events: seq<Event>, x: nat, a: int)
    requires Run(w, states, events) && HasNode(states, x, a)
    ensures states[x].nodes[a].lastSnapshotIndex == 0
  {
    SameNodes(w, states, events, x);
    var hs := RunHasHistories(w, states, events);
    assert Inv(w, states[x], hs[x]);
  }

  // ----- what leaders ship -----

  /**
   Own-term shipping: whatever a leader sends to a peer is the exact window of its log from some index to the end,
   with the true preceding term, and holds entries of its own term only.
  */
  lemma OwnTermShipping(w: World, states: seq<System>, events: seq<Event>, x: nat, i: int, j: int)
    requires Run(w, states, events) && HasNode(states, x, i)
    requires states[x].nodes[i].role == Leader && j in states[x].nodes[i].peers
    ensures var n := states[x].nodes[i];
      && Outbound(n, j).SendAppend?
      && var m := Outbound(n, j).args;
        && m.term == n.currentTerm && m.leaderCommit == n.commitIdx
        && IsWindow(n.log, m)
        && forall e :: e in m.entries ==> e.term == n.currentTerm
  {
    SameNodes(w, states, events, x);
    var hs := RunHasHistories(w, states, events);
    assert Inv(w, states[x], hs[x]);
    ShipsOwnTerm(w, hs[x], states[x].nodes[i], j);
  }

  // ----- where leaders ship from -----

  lemma ElectedWith(w: World, states: seq<System>, events: seq<Event>, z: nat, x: nat, i: int, hs: seq<History>)
    requires Run(w, states, events) && AreHistories(w, states, events, hs) && z < x < |states|
    requires HasNode(states, x, i) && CrashRuns.WonTerm(states, events, z, i, states[x].nodes[i].currentTerm)
    ensures var t := states[x].nodes[i].currentTerm;
      t in hs[x].leaders && hs[x].leaders[t].electedLen == |states[z].nodes[i].log|
  {
    var t := states[x].nodes[i].currentTerm;
    assert HistoryStep(states[z], events[z], states[z + 1], hs[z], hs[z + 1]);
    HistoriesGrow(w, states, events, hs, z + 1, x);
    assert SameLeadership(hs[z + 1].leaders[t], hs[x].leaders[t]);
  }

  /**
   What any leader ships starts behind the log with which it won its term: there is such a point of the run, with one
   length of the log if there are more, and the log had at least one entry then.
  */
  lemma ShipsBehindElection(w: World, states: seq<System>, events: seq<Event>, x: nat, i: int, j: int)
      returns (z: nat)
    requires Run(w, states, events) && HasNode(states, x, i)
    requires states[x].nodes[i].role == Leader && j in states[x].nodes[i].peers
    ensures z < x && CrashRuns.WonTerm(states, events, z, i, states[x].nodes[i].currentTerm)
    ensures Outbound(states[x].nodes[i], j).SendAppend?
    ensures 0 < |states[z].nodes[i].log| <= Outbound(states[x].nodes[i], j).args.prevLogIndex
    ensures forall y: nat :: y < x && CrashRuns.WonTerm(states, events, y, i, states[x].nodes[i].currentTerm) ==>
              |states[y].nodes[i].log| == |states[z].nodes[i].log|
  {
    SameNodes(w, states, events, x);
    CrashRuns.RunIsCrashRun(w, states, events);
    z := CrashRuns.LeaderHasWon(w, states, events, x, i);
    var hs := RunHasHistories(w, states, events);
    ElectedWith(w, states, events, z, x, i, hs);
    forall y: nat | y < x && CrashRuns.WonTerm(states, events, y, i, states[x].nodes[i].currentTerm)
      ensures |states[y].nodes[i].log| == hs[x].leaders[states[x].nodes[i].currentTerm].electedLen
    {
      ElectedWith(w, states, events, y, x, i, hs);
    }
    assert Inv(w, states[x], hs[x]);
    ShipsOwnTerm(w, hs[x], states[x].nodes[i], j);
    assert QuorumOk(w, hs[x], states[x].nodes[i].currentTerm);
  }

  /** An append of the leader's own term gives it success in that term, or an error. */
  lemma OutcomeOfAppend(n: Node, f: Node)
    requires Outbound(n, f.id).SendAppend? && Outbound(n, f.id).args.term == n.currentTerm
    ensures Deliver(n, f).1
            == (if AppendEntries(f, Outbound(n, f.id).args).1 then Reply(true, n.currentTerm) else NoReply)
  {
    if AppendEntries(f, Outbound(n, f.id).args).1 { AcceptedTerm(f, Outbound(n, f.id).args); }
  }

  /** Neither outcome counts a next index down. */
  lemma OutcomeSettles(n: Node, j: int, reply: AppendReply)
    requires j in n.nextIndex && n.nextIndex[j] <= n.LastIndex() + 1
    requires reply == NoReply || reply == Reply(true, n.currentTerm)
    ensures j in Settle(n, j, reply).nextIndex && Settle(n, j, reply).nextIndex[j] >= n.nextIndex[j]
  {
  }

  /** A leader knows where to ship to each peer, and has no snapshot to ship. */
  lemma TrackedPeer(w: World, states: seq<System>, events: seq<Event>, x: nat, i: int, j: int)
    requires WellFormed(w) && IsRun(w, states, events) && HasNode(states, x, i)
    requires states[x].nodes[i].role == Leader && j in states[x].nodes[i].peers
    ensures var n := states[x].nodes[i];
      && j in states[x].nodes && states[x].nodes[j].id == j
      && j in n.nextIndex && n.nextIndex[j] <= n.LastIndex() + 1
      && Outbound(n, j).SendAppend? && Outbound(n, j).args.term == n.currentTerm
  {
    CrashRuns.RunIsCrashRun(w, states, events);
    CrashRuns.SoundRun(w, states, events, x);
    assert CrashRuns.Sound(w, i, states[x].nodes[i]) && CrashRuns.Sound(w, j, states[x].nodes[j]);
  }

  /**
   A refusal never reaches a leader as a reply, in any run: the leader sees success, in its own term, of an append that
   was accepted, or an error. So it never counts a next index down.
  */
  lemma RefusalsAreErrors(w: World, states: seq<System>, events: seq<Event>, x: nat, i: int, j: int)
    requires WellFormed(w) && IsRun(w, states, events) && HasNode(states, x, i) && HasNode(states, x, j)
    requires states[x].nodes[i].role == Leader && j in states[x].nodes[i].peers
    ensures var n, f := states[x].nodes[i], states[x].nodes[j];
      && Outbound(n, j).SendAppend?
      && var accepted := AppendEntries(f, Outbound(n, j).args).1;
      && Deliver(n, f).1 == (if accepted then Reply(true, n.currentTerm) else NoReply)
      && j in n.nextIndex && j in Settle(n, j, Deliver(n, f).1).nextIndex
      && Settle(n, j, Deliver(n, f).1).nextIndex[j] >= n.nextIndex[j]
  {
    var n, f := states[x].nodes[i], states[x].nodes[j];
    TrackedPeer(w, states, events, x, i, j);
    OutcomeOfAppend(n, f);
    OutcomeSettles(n, j, Deliver(n, f).1);
  }

  // ----- what followers hold after accepting -----

  /** A follower that accepts a window has the sender's term at the preceding index. */
  lemma AcceptedPreceding(f: Node, m: AppendArgs)
    requires f.lastSnapshotIndex == 0 && m.prevLogIndex > 0 && AppendEntries(f, m).1
    ensures m.prevLogIndex <= |f.log| && f.log[m.prevLogIndex - 1].term == m.prevLogTerm
  {
  }

  /** If it also has the sender's entries up to there, it ends up with the sender's log, and only that if any came. */
  lemma AcceptedWindow(f: Node, m: AppendArgs, log: seq<Entry>)
    requires f.lastSnapshotIndex == 0 && IsWindow(log, m) && AppendEntries(f, m).1
    requires m.prevLogIndex <= |f.log| && f.log[..m.prevLogIndex] == log[..m.prevLogIndex]
    ensures AppendEntries(f, m).0.log == if m.entries == [] then f.log else log
    ensures log <= AppendEntries(f, m).0.log
  {
    assert log[..m.prevLogIndex] + m.entries == log;
    var l := ObserveLeader(f, m.term, m.leaderId);
    assert AppendEntries(f, m).0 == FollowCommit(Splice(l, m), m.leaderCommit);
    assert Splice(l, m).log == if m.entries == [] then f.log else f.log[..m.prevLogIndex] + m.entries;
  }

  /**
   Alignment in runs: a follower from which a leader gets a reply holds the leader's whole log, and exactly that if
   anything was shipped. That the two agreed before is no assumption: their terms at the preceding index do.
  */
  lemma RepliesMeanAgreement(w: World, states: seq<System>, events: seq<Event>, x: nat, i: int, j: int)
    requires Run(w, states, events) && HasNode(states, x, i) && HasNode(states, x, j)
    requires states[x].nodes[i].role == Leader && j in states[x].nodes[i].peers
    requires Deliver(states[x].nodes[i], states[x].nodes[j]).1.Reply?
    ensures Outbound(states[x].nodes[i], j).SendAppend?
    ensures var n, f' := states[x].nodes[i], Deliver(states[x].nodes[i], states[x].nodes[j]).0;
      n.log <= f'.log && (Outbound(n, j).args.entries != [] ==> f'.log == n.log)
  {
    var n, f := states[x].nodes[i], states[x].nodes[j];
    SameNodes(w, states, events, x);
    PeersAreOthers(w, states, events, x, j);
    NoSnapshots(w, states, events, x, j);
    OwnTermShipping(w, states, events, x, i, j);
    var m := Outbound(n, j).args;
    AcceptedPreceding(f, m);
    LogsMatch(w, states, events, x, j, x, i, m.prevLogIndex - 1);
    AcceptedWindow(f, m, n.log);
  }

  // ----- safe runs -----

  predicate SamePrefix(n: Node, m: Node, k: nat) {
    k <= |n.log| && k <= |m.log| && n.log[..k] == m.log[..k]
  }

  /** Every index that both have committed holds the same in both logs. */
  ghost predicate CommittedAlike(n: Node, m: Node) {
    forall k: nat :: k <= n.commitIdx && k <= m.commitIdx ==> SamePrefix(n, m, k)
  }

  ghost predicate CommitsAgree(states: seq<System>) {
    forall x: nat, a: int, y: nat, b: int :: HasNode(states, x, a) && HasNode(states, y, b) ==>
      CommittedAlike(states[x].nodes[a], states[y].nodes[b])
  }

  lemma SafeFromPrefix(w: World, states: seq<System>, events: seq<Event>)
    requires Run(w, states, events)
    ensures CommitsAgree(states)
  {
    forall x: nat, a: int, y: nat, b: int | HasNode(states, x, a) && HasNode(states, y, b)
      ensures CommittedAlike(states[x].nodes[a], states[y].nodes[b])
    {
      var n, m := states[x].nodes[a], states[y].nodes[b];
      forall k: nat | k <= n.commitIdx && k <= m.commitIdx
        ensures SamePrefix(n, m, k)
      {
        StateMachineSafety(w, states, events, x, a, y, b, k);
      }
    }
  }
}
