/** What single handlers promise beside their main effect: whom a node follows, when they fail, and what is noted. */
module HandlerLaws {
  import opened Types
  import opened NodeSpec
  import opened Recovery
  import opened StateMachine
  import Commands

  // ----- following -----

  /** A message of a current leader is followed, also when its entries do not fit; a stale one changes nothing. */
  lemma AppendFollows(n: Node, m: AppendArgs)
    ensures var n' := AppendEntries(n, m).0;
      if m.term < n.currentTerm then n' == n
      else
        && n'.role == Follower && n'.leaderId == m.leaderId && n'.currentTerm == m.term
        && n'.votedFor == (if m.term > n.currentTerm then -1 else n.votedFor)
    ensures !AppendEntries(n, m).1 ==>
      AppendEntries(n, m).0.log == n.log && AppendEntries(n, m).0.commitIdx == n.commitIdx
  {
  }

  /** The same for a snapshot, which fails exactly when it is stale and is taken over exactly when it is newer. */
  lemma InstallFollows(n: Node, m: InstallArgs)
    ensures InstallSnapshot(n, m).1 <==> m.term >= n.currentTerm
    ensures var n' := InstallSnapshot(n, m).0;
      if m.term < n.currentTerm then n' == n
      else
        && n'.role == Follower && n'.leaderId == m.leaderId && n'.currentTerm == m.term
        && n'.votedFor == (if m.term > n.currentTerm then -1 else n.votedFor)
        && (m.lastIncludedIndex <= n.lastSnapshotIndex ==>
              && n'.log == n.log && n'.snapshot == n.snapshot && n'.store == n.store && n'.disk == n.disk
              && n'.commitIdx == n.commitIdx && n'.lastApplied == n.lastApplied)
  {
  }

  /**
   * A newer snapshot is taken over with both indices: the commit index becomes the snapshot's, and the node goes on
   * applying at the first index that it has not applied and the snapshot does not cover.
   */
  lemma InstallGoesOnBehind(n: Node, m: InstallArgs, index: int)
    requires m.term >= n.currentTerm && m.lastIncludedIndex > n.lastSnapshotIndex
    ensures var n' := InstallSnapshot(n, m).0;
      && n'.commitIdx == n'.lastSnapshotIndex == m.lastIncludedIndex
      && n'.lastSnapshotTerm == m.lastIncludedTerm
      && n'.snapshot == Some(Snapshot(m.lastIncludedIndex, m.lastIncludedTerm, m.data)) && n'.store == m.data
      && (index <= n'.lastApplied <==> index <= n.lastApplied || index <= n'.lastSnapshotIndex)
  {
  }

  /** A vote request is answered with the vote in its own term, and moves the node on exactly to a later term. */
  lemma VoteFollows(n: Node, m: VoteRequest)
    ensures var n' := RequestVote(n, m).0;
      && n'.currentTerm == (if m.term > n.currentTerm then m.term else n.currentTerm)
      && n'.role == (if m.term > n.currentTerm then Follower else n.role)
      && n'.log == n.log && n'.leaderId == n.leaderId && n'.commitIdx == n.commitIdx
    ensures RequestVote(n, m).1 ==> RequestVote(n, m).0.votedFor == m.candidate && m.term >= n.currentTerm
  {
  }

  /** A leader goes on leading after an answer exactly when that names no later term, and else follows in that term. */
  lemma AnswersDepose(n: Node, f: int, index: nat, reply: AppendReply, outcome: InstallReply)
    requires n.role == Leader
    ensures var n' := HandleAppendReply(n, f, n.currentTerm, index, reply);
      if reply.Reply? && reply.term > n.currentTerm then
        n'.role == Follower && n'.currentTerm == reply.term && n'.votedFor == -1
      else n'.role == Leader && n'.currentTerm == n.currentTerm && n'.votedFor == n.votedFor
    ensures var n' := HandleInstallReply(n, f, n.currentTerm, index, outcome);
      if outcome.Installed? && outcome.term > n.currentTerm then
        n'.role == Follower && n'.currentTerm == outcome.term && n'.votedFor == -1
      else n'.role == Leader && n'.currentTerm == n.currentTerm && n'.votedFor == n.votedFor
  {
  }

  // ----- leading -----

  /** A proposal is taken up exactly by a leader, and its index is where the log then has the entry, at its end. */
  lemma ProposalIsLast(n: Node, command: string)
    ensures var (n', index, taken) := Propose(n, command);
      && (taken <==> n.role == Leader)
      && (!taken ==> n' == n && index == -1)
      && (taken ==>
            && index == n'.LastIndex() == n.LastIndex() + 1
            && n'.log[index - 1 - n'.lastSnapshotIndex] == Commands.EntryOf(n.currentTerm, command)
            && n'.log[..index - 1 - n'.lastSnapshotIndex] == n.log)
  {
  }

  /** A winner takes nothing for granted: no peer counts for an entry yet, and each is shipped what follows the log. */
  lemma LeadsFromEnd(n: Node, f: int, index: nat)
    requires index >= 1 && f in n.peers
    ensures var n' := BecomeLeader(n);
      && f !in Holders(n', n.peers, index)
      && Lookup(n'.nextIndex, f) == n'.LastIndex() + 1
      && n'.matchIndex.Keys == n.matchIndex.Keys + n.peers && n'.nextIndex.Keys == n.nextIndex.Keys + n.peers
      && n'.log == n.log && n'.currentTerm == n.currentTerm && n'.commitIdx == n.commitIdx
  {
  }

  // ----- counting down -----

  function Refused(n: Node, f: int, times: nat): Node {
    if times == 0 then n else CountDown(Refused(n, f, times - 1), f)
  }

  /** Refusals, were they to arrive, would lead the next index back one by one, and no further than to the snapshot. */
  lemma {:induction false} RefusalsLeadBack(n: Node, f: int, times: nat)
    requires f in n.nextIndex && n.nextIndex[f] >= n.lastSnapshotIndex + 1
    ensures var n' := Refused(n, f, times);
      && n' == n.(nextIndex := n'.nextIndex) && n'.nextIndex.Keys == n.nextIndex.Keys
      && n'.nextIndex[f] == (if n.nextIndex[f] - times > n.lastSnapshotIndex then n.nextIndex[f] - times
                             else n.lastSnapshotIndex + 1)
      && forall g :: g in n.nextIndex && g != f ==> n'.nextIndex[g] == n.nextIndex[g]
    decreases times
  {
    if times == 0 {
    } else {
      RefusalsLeadBack(n, f, times - 1);
    }
  }

  /** An answered append without success is one such refusal. */
  lemma RefusalCountsDown(n: Node, f: int, index: nat, term: nat)
    requires term <= n.currentTerm
    ensures HandleAppendReply(n, f, n.currentTerm, index, Reply(false, term)) == Refused(n, f, 1)
  {
    assert Refused(n, f, 1) == CountDown(Refused(n, f, 0), f);
  }

  // ----- snapshots -----

  /** Taking a snapshot fails exactly when entries up to the commit index are missing, and then changes nothing. */
  lemma SnapshotFailsExactly(n: Node)
    ensures TakeSnapshot(n).1 <==> n.commitIdx <= n.LastIndex()
    ensures n.commitIdx <= n.lastSnapshotIndex || n.commitIdx > n.LastIndex() <==> TakeSnapshot(n).0 == n
    ensures TakeSnapshot(n).0.LastIndex() == n.LastIndex()
    ensures TakeSnapshot(n).0.commitIdx == n.commitIdx && TakeSnapshot(n).0.lastApplied == n.lastApplied
    ensures TakeSnapshot(n).0.store == n.store
  {
  }

  /** The leader's snapshot goes to a follower exactly when that is behind it; what it says is what the leader has. */
  lemma SendsSnapshotExactly(n: Node, f: int)
    ensures Outbound(n, f).SendSnapshot? <==> n.snapshot.Some? && Lookup(n.nextIndex, f) <= n.lastSnapshotIndex
    ensures Outbound(n, f).SendSnapshot? ==>
      var m := Outbound(n, f).install;
      && m.term == n.currentTerm && m.leaderId == n.id && m.data == n.snapshot.value.data
      && m.lastIncludedIndex == n.lastSnapshotIndex && m.lastIncludedTerm == n.lastSnapshotTerm
    ensures Outbound(n, f).SendAppend? ==> Outbound(n, f).args == WindowFrom(n, Lookup(n.nextIndex, f))
  {
  }

  /** What a leader makes of the whole exchange of a snapshot with a follower that takes it or has a newer one. */
  ghost function AfterSnapshot(n: Node, f: Node): Node
    requires Outbound(n, f.id).SendSnapshot?
  {
    var f' := InstallSnapshot(f, Outbound(n, f.id).install).0;
    HandleInstallReply(n, f.id, n.currentTerm, n.lastSnapshotIndex, Installed(f'.currentTerm))
  }

  /** After it the leader counts on the follower for what that holds and no more, and goes on right behind it. */
  lemma SnapshotIsNoted(n: Node, f: Node)
    requires n.role == Leader && Outbound(n, f.id).SendSnapshot? && f.currentTerm <= n.currentTerm
    ensures var f' := InstallSnapshot(f, Outbound(n, f.id).install).0;
      var n' := AfterSnapshot(n, f);
      && f.id in n'.matchIndex && n'.matchIndex[f.id] == n.lastSnapshotIndex
      && n.lastSnapshotIndex <= f'.lastSnapshotIndex
      && Outbound(n', f.id) == SendAppend(WindowFrom(n', n.lastSnapshotIndex + 1))
      && n' == n.(matchIndex := n'.matchIndex, nextIndex := n'.nextIndex)
      && forall g :: g != f.id ==> Lookup(n'.matchIndex, g) == Lookup(n.matchIndex, g)
                                   && Lookup(n'.nextIndex, g) == Lookup(n.nextIndex, g)
  {
  }

  /**
   Catching up by exchanges: a follower with nothing behind the leader's snapshot installs it, the leader hears of it,
   and its next append gives the follower the leader's log; what it then applies ends in the store of a replay from the
   start.
  */
  lemma CatchUpByExchanges(l: Node, f: Node, full: seq<Entry>)
    requires Holds(l, full) && l.lastSnapshotIndex < l.commitIdx <= |full| && l.lastApplied == l.commitIdx
    requires l.store == Fold(full[..l.commitIdx], map[]) && Lookup(l.nextIndex, f.id) <= l.commitIdx
    requires f.lastApplied <= f.commitIdx <= l.commitIdx && f.lastSnapshotIndex < l.commitIdx && l.role == Leader
    requires f.LastIndex() <= l.commitIdx && f.currentTerm <= l.currentTerm
    ensures var n := TakeSnapshot(l).0;
      && Outbound(n, f.id).SendSnapshot?
      && var f1 := InstallSnapshot(f, Outbound(n, f.id).install).0;
      && var n' := AfterSnapshot(n, f);
      && Outbound(n', f.id).SendAppend?
      && var (f2, accepted) := AppendEntries(f1, Outbound(n', f.id).args);
      accepted && Holds(f2, full) && ApplyAll(f2).store == Fold(full[..l.commitIdx], map[])
  {
    var n := TakeSnapshot(l).0;
    ShippedSnapshot(l, f.id, full);
    TakenSnapshot(l, full);
    SnapshotIsNoted(n, f);
    CatchUpByAppend(l, f, full, AfterSnapshot(n, f), full);
    assert full[l.commitIdx..l.commitIdx] == [];
  }

  // ----- starting up -----

  /** A node that starts up ships every peer what follows its snapshot, and counts on none of them. */
  lemma StartsBehindSnapshot(id: int, peers: set<int>, d: Disk, f: int)
    requires f in peers
    ensures var n := Recover(id, peers, d);
      && Outbound(n, f) == SendAppend(WindowFrom(n, n.lastSnapshotIndex + 1)) && Lookup(n.matchIndex, f) == 0
      && n.role == Follower && n.commitIdx == 0 && n.lastApplied == 0
      && n.config.oldConfig.nodes == peers + {id} && n.nextIndex.Keys == peers && n.matchIndex.Keys == peers
  {
  }

  /** The store that a node starts up with is the saved one, unless nothing follows its snapshot, which then has it. */
  lemma StartsWithStore(id: int, peers: set<int>, d: Disk)
    ensures Recover(id, peers, d).store
            == if d.snapshot.Some? && LoadState(d).log == [] then d.snapshot.value.data else d.store
  {
  }
}
