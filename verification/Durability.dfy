/** What is on disk: over any steps and crashes, the log, the snapshot and the store; and exactly when all. */
module Durability {
  import opened Types
  import opened NodeSpec
  import opened Cluster
  import opened CrashRuns
  import opened Crashes

  // ----- log, snapshot and store -----

  /** What the node would find again is the log that it has. */
  predicate LogSaved(n: Node) {
    LoadState(n.disk).log == n.log
  }

  /** The latest snapshot is on disk, and the node's snapshot index and term are those of that snapshot. */
  predicate SnapshotSaved(n: Node) {
    && n.disk.snapshot == n.snapshot
    && match n.snapshot
       case None => n.lastSnapshotIndex == 0 && n.lastSnapshotTerm == 0
       case Some(s) => n.lastSnapshotIndex == s.lastIncludedIndex && n.lastSnapshotTerm == s.lastIncludedTerm
  }

  /** The store is on disk, or is what the latest snapshot holds, from which it was restored. */
  predicate StoreSaved(n: Node) {
    n.store == n.disk.store || (n.snapshot.Some? && n.store == n.snapshot.value.data)
  }

  predicate AllSaved(n: Node) {
    LogSaved(n) && SnapshotSaved(n) && StoreSaved(n)
  }

  lemma RecoveredIsSaved(id: int, peers: set<int>, d: Disk)
    ensures AllSaved(Recover(id, peers, d))
  {
  }

  lemma SpliceSaves(n: Node, m: AppendArgs)
    requires AllSaved(n)
    ensures AllSaved(FollowCommit(Splice(n, m), m.leaderCommit))
  {
  }

  lemma AppendSaves(n: Node, m: AppendArgs)
    requires AllSaved(n)
    ensures AllSaved(AppendEntries(n, m).0)
  {
    var l := ObserveLeader(n, m.term, m.leaderId);
    assert AllSaved(l);
    SpliceSaves(l, m);
  }

  lemma InstallSaves(n: Node, m: InstallArgs)
    requires AllSaved(n)
    ensures AllSaved(InstallSnapshot(n, m).0)
  {
  }

  lemma SnapshotSaves(n: Node)
    requires AllSaved(n)
    ensures AllSaved(TakeSnapshot(n).0)
  {
  }

  lemma ChangesSave(n: Node, id: int)
    requires AllSaved(n)
    ensures AllSaved(RequestAddServer(n, id).0) && AllSaved(RequestRemoveServer(n, id).0)
  {
  }

  lemma HandledChangeSaves(n: Node, change: ConfigChange)
    requires AllSaved(n)
    ensures AllSaved(HandleConfigChange(n, change))
  {
  }

  lemma ConsumeSaves(n: Node, e: Entry)
    requires AllSaved(n)
    ensures AllSaved(Consume(n, e))
  {
    HandledChangeSaves(n, e.change);
  }

  lemma ApplySaves(n: Node)
    requires AllSaved(n)
    ensures AllSaved(ApplyNext(n))
  {
    assert AllSaved(Fetched(n));
    if NextEntry(n).Some? { ConsumeSaves(Fetched(n), NextEntry(n).value); }
  }

  lemma VoteSaves(n: Node, m: VoteRequest)
    requires AllSaved(n)
    ensures AllSaved(RequestVote(n, m).0)
  {
  }

  lemma AnswersSave(n: Node, f: int, reply: AppendReply, outcome: InstallReply)
    requires AllSaved(n)
    ensures AllSaved(HandleAppendReply(n, f, n.currentTerm, n.lastSnapshotIndex, reply))
    ensures AllSaved(HandleInstallReply(n, f, n.currentTerm, n.lastSnapshotIndex, outcome))
  {
  }

  lemma ActionSaves(n: Node, a: Action)
    requires AllSaved(n)
    ensures AllSaved(NodeAfter(n, a))
  {
    match a
    case Appended(m) => AppendSaves(n, m);
    case Installed(m) => InstallSaves(n, m);
    case Compacted => SnapshotSaves(n);
    case AddAsked(id) => ChangesSave(n, id);
    case RemoveAsked(id) => ChangesSave(n, id);
    case Applied => ApplySaves(n);
    case VoteAsked(m) => VoteSaves(n, m);
    case AppendAnswered(f, reply) => AnswersSave(n, f, reply, NoInstallReply);
    case InstallAnswered(f, outcome) => AnswersSave(n, f, NoReply, outcome);
    case Crashed => RecoveredIsSaved(n.id, n.peers, n.disk);
    case _ =>
  }

  /** Over any sequence of steps and crashes the log, the snapshot and the store are on disk. */
  lemma {:induction false} ActionsSave(n: Node, actions: seq<Action>)
    requires AllSaved(n)
    ensures AllSaved(LifeAfter(n, actions).node)
    decreases |actions|
  {
    if actions == [] {
    } else {
      ActionsSave(n, actions[..|actions| - 1]);
      ActionSaves(LifeAfter(n, actions[..|actions| - 1]).node, actions[|actions| - 1]);
      LastAction(n, actions);
    }
  }

  /** A crash therefore loses no entry and no snapshot, and the node judges candidates as before. */
  lemma CrashKeepsLog(n: Node, actions: seq<Action>)
    requires AllSaved(n)
    ensures var before := LifeAfter(n, actions).node;
      var r := Recover(before.id, before.peers, before.disk);
      && r.log == before.log && r.snapshot == before.snapshot
      && r.LastIndex() == before.LastIndex() && r.LastTerm() == before.LastTerm()
  {
    ActionsSave(n, actions);
  }

  /** What an accepted append has left in the log is there after a crash, with the shipped entries at its end. */
  lemma AcceptedSurvivesCrash(n: Node, actions: seq<Action>, m: AppendArgs)
    requires AllSaved(n) && AppendEntries(LifeAfter(n, actions).node, m).1
    ensures var f := AppendEntries(LifeAfter(n, actions).node, m).0;
      Recover(f.id, f.peers, f.disk).log == f.log && m.entries <= f.log[|f.log| - |m.entries|..]
  {
    ActionsSave(n, actions);
    AppendSaves(LifeAfter(n, actions).node, m);
  }

  // ----- in runs -----

  lemma FirstSaves(w: World, s: System, k: int)
    requires Initial(w, s) && k in s.nodes
    ensures AllSaved(s.nodes[k])
  {
  }

  lemma StepSaves(w: World, s: System, e: Event, k: int)
    requires AllSound(w, s) && Fires(w, s, e) && k in w.ids && AllSaved(s.nodes[k])
    ensures k in Outcome(w, s, e).nodes && AllSaved(Outcome(w, s, e).nodes[k])
  {
    EventActs(w, s, e, k);
    if ActionOn(s, e, k).Some? { ActionSaves(s.nodes[k], ActionOn(s, e, k).value); }
  }

  lemma NextSaves(w: World, states: seq<System>, events: seq<Event>, x: nat, k: int)
    requires WellFormed(w) && IsCrashRun(w, states, events) && x < |events| && k in w.ids
    requires HasNode(states, x, k) && AllSaved(states[x].nodes[k])
    ensures HasNode(states, x + 1, k) && AllSaved(states[x + 1].nodes[k])
  {
    SoundRun(w, states, events, x);
    CrashStep(w, states, events, x);
    StepSaves(w, states[x], events[x], k);
  }

  lemma {:induction false} MemberSaves(w: World, states: seq<System>, events: seq<Event>, x: nat, k: int)
    requires WellFormed(w) && IsCrashRun(w, states, events) && x < |states| && k in w.ids
    ensures HasNode(states, x, k) && AllSaved(states[x].nodes[k])
    decreases x
  {
    if x == 0 {
      FirstSaves(w, states[0], k);
    } else {
      MemberSaves(w, states, events, x - 1, k);
      NextSaves(w, states, events, x - 1, k);
    }
  }

  /** In every state of every run, with crashes or without, every node has its log, snapshot and store on disk. */
  lemma RunSaves(w: World, states: seq<System>, events: seq<Event>, x: nat, k: int)
    requires WellFormed(w) && IsCrashRun(w, states, events) && HasNode(states, x, k)
    ensures AllSaved(states[x].nodes[k])
  {
    SoundRun(w, states, events, x);
    MemberSaves(w, states, events, x, k);
  }

  // ----- term and vote as well -----

  /** The steps after which term and vote, or all of the saved state, are not what is on disk. */
  predicate LeavesUnsaved(n: Node, a: Action) {
    match a
    case TimedOut => n.role != Leader
    case AppendAnswered(_, reply) => reply.Reply? && reply.term > n.currentTerm
    case InstallAnswered(_, outcome) => outcome.Installed? && outcome.term > n.currentTerm
    case Installed(m) => m.term > n.currentTerm && m.lastIncludedIndex <= n.lastSnapshotIndex
    case Applied => NextEntry(n).Some? && NextEntry(n).value.command == "CLEAN"
    case _ => false
  }

  lemma AppendDurable(n: Node, m: AppendArgs)
    requires Durable(n)
    ensures Durable(AppendEntries(n, m).0)
  {
  }

  lemma InstallDurable(n: Node, m: InstallArgs)
    requires Durable(n)
    ensures Durable(InstallSnapshot(n, m).0) <==> !LeavesUnsaved(n, Action.Installed(m))
  {
  }

  lemma ApplyDurable(n: Node)
    requires Durable(n)
    ensures Durable(ApplyNext(n)) <==> !LeavesUnsaved(n, Applied)
  {
  }

  lemma AnswersDurable(n: Node, f: int, reply: AppendReply)
    requires Durable(n)
    ensures Durable(HandleAppendReply(n, f, n.currentTerm, n.lastSnapshotIndex, reply))
            <==> !LeavesUnsaved(n, AppendAnswered(f, reply))
  {
  }

  /** When everything is on disk, it still is after a step if and only if that is none of the steps that do not save. */
  lemma DurableExactly(n: Node, a: Action)
    requires Durable(n)
    ensures Durable(NodeAfter(n, a)) <==> !LeavesUnsaved(n, a)
  {
    match a
    case Appended(m) => AppendDurable(n, m);
    case Installed(m) => InstallDurable(n, m);
    case Applied => ApplyDurable(n);
    case AppendAnswered(f, reply) => AnswersDurable(n, f, reply);
    case _ =>
  }

  /** Whatever was unsaved, a granted vote, new entries, a proposal and a new snapshot put everything on disk. */
  lemma SavesEverything(n: Node, r: VoteRequest, m: AppendArgs, command: string, i: InstallArgs)
    ensures RequestVote(n, r).1 || r.term > n.currentTerm ==> Durable(RequestVote(n, r).0)
    ensures AppendEntries(n, m).1 && m.entries != [] ==> Durable(AppendEntries(n, m).0)
    ensures m.term > n.currentTerm ==> Durable(AppendEntries(n, m).0)
    ensures n.role == Leader ==> Durable(Propose(n, command).0)
    ensures i.term >= n.currentTerm && i.lastIncludedIndex > n.lastSnapshotIndex ==> Durable(InstallSnapshot(n, i).0)
    ensures n.lastSnapshotIndex < n.commitIdx <= n.LastIndex() ==> Durable(TakeSnapshot(n).0)
  {
  }
}
