/** A node that compacts its log behaves like one that never does. */
module Compaction {
  import opened Types
  import opened StateMachine
  import opened NodeSpec
  import Commands

  /** What a node is asked to do. */
  datatype Op =
    | Vote(request: VoteRequest)
    | Append(args: AppendArgs)
    | Submit(command: string)
    | Elect(replies: seq<bool>)
    | Ship(follower: int)
    | Hear(follower: int, reply: AppendReply)
    | Apply
    | Add(server: int)
    | Remove(server: int)
    | Compact

  /** What the asker, or anyone looking at the commit decisions and the store, learns. */
  datatype Answer =
    | Voted(granted: bool, term: nat)
    | Appended(accepted: bool, term: nat)
    | Index(index: int, term: nat, isLeader: bool)
    | Sent(message: Outgoing)
    | Changed(ok: bool)
    | Nothing

  /** The answer, and the decisions that can be observed of the node beside it. */
  datatype Decision = Decision(answer: Answer, role: Role, commitIdx: nat, lastIndex: nat, lastApplied: nat)

  datatype Observed = Observed(decision: Decision, store: Data)

  ghost function Perform(n: Node, op: Op): (Node, Answer) {
    match op
    case Vote(m) => var (n', granted) := RequestVote(n, m); (n', Voted(granted, n'.currentTerm))
    case Append(m) => var (n', accepted) := AppendEntries(n, m); (n', Appended(accepted, n'.currentTerm))
    case Submit(command) =>
      var (n', index, isLeader) := Propose(n, command);
      (n', Index(index, n'.currentTerm, isLeader))
    case Elect(replies) => (ElectionOutcome(n, replies), Nothing)
    case Ship(f) => (n, Sent(Outbound(n, f)))
    case Hear(f, reply) => (HandleAppendReply(n, f, n.currentTerm, n.lastSnapshotIndex, reply), Nothing)
    case Apply => (ApplyNext(n), Nothing)
    case Add(id) => var (n', ok) := RequestAddServer(n, id); (n', Changed(ok))
    case Remove(id) => var (n', ok) := RequestRemoveServer(n, id); (n', Changed(ok))
    case Compact => (TakeSnapshot(n).0, Nothing)
  }

  /** The same for a node that never compacts. */
  ghost function PerformPlain(n: Node, op: Op): (Node, Answer) {
    if op == Compact then (n, Nothing) else Perform(n, op)
  }

  ghost function Observe(n: Node, a: Answer): Observed {
    Observed(Decision(a, n.role, n.commitIdx, n.LastIndex(), n.lastApplied), n.store)
  }

  // ----- the relation -----

  /** `c` is `a` with the entries up to the snapshot index dropped. */
  ghost predicate Compacts(c: Node, a: Node) {
    && a == c.(log := a.log, lastSnapshotIndex := 0, lastSnapshotTerm := 0, snapshot := None, disk := a.disk)
    && c.lastSnapshotIndex <= |a.log| && c.log == a.log[c.lastSnapshotIndex..]
    && c.lastSnapshotTerm == (if c.lastSnapshotIndex > 0 then a.log[c.lastSnapshotIndex - 1].term else 0)
  }

  /** All that the node has dropped, it had applied. */
  predicate Settled(c: Node) {
    c.lastSnapshotIndex <= c.lastApplied
  }

  /** The preceding entry lies behind the snapshot, or none is named, or nothing can be out of place at the boundary. */
  predicate BehindSnapshot(c: Node, m: AppendArgs) {
    || m.prevLogIndex > c.lastSnapshotIndex
    || m.prevLogIndex <= 0
    || (m.prevLogIndex == c.lastSnapshotIndex && (c.log == [] || m.entries == []))
  }

  /** What an operation has to meet for compaction not to show. */
  predicate Admissible(c: Node, op: Op) {
    match op
    case Append(m) => m.term < c.currentTerm || BehindSnapshot(c, m)
    case Ship(f) => Lookup(c.nextIndex, f) > c.lastSnapshotIndex
    case Hear(_, reply) => reply.Reply? ==> reply.success
    case Apply => NextEntry(c).Some? ==> NextEntry(c).value.command != "CLEAN"
    case Compact => c.lastApplied == c.commitIdx
    case _ => true
  }

  // ----- operation by operation -----

  lemma SameEnds(c: Node, a: Node)
    requires Compacts(c, a)
    ensures c.LastIndex() == a.LastIndex() && c.LastTerm() == a.LastTerm()
    ensures forall p :: c.lastSnapshotIndex <= p < |a.log| ==> a.log[p] == c.log[p - c.lastSnapshotIndex]
  {
  }

  lemma VoteHidesCompaction(c: Node, a: Node, m: VoteRequest)
    requires Compacts(c, a)
    ensures RequestVote(c, m).1 == RequestVote(a, m).1 && Compacts(RequestVote(c, m).0, RequestVote(a, m).0)
  {
    var c1, a1 := ObserveCandidate(c, m.term), ObserveCandidate(a, m.term);
    assert Compacts(c1, a1);
    SameEnds(c1, a1);
    assert Grants(c1, m) == Grants(a1, m);
    assert Compacts(c1.(votedFor := m.candidate).Save(), a1.(votedFor := m.candidate).Save());
  }

  /** Appending behind a position, and dropping a part before it, can be done in either order. */
  lemma AppendedTail(log: seq<Entry>, dropped: nat, p: nat, entries: seq<Entry>)
    requires dropped <= p <= |log|
    ensures (log[..p] + entries)[dropped..] == log[dropped..][..p - dropped] + entries
  {
  }

  lemma SpliceHidesCompaction(c: Node, a: Node, m: AppendArgs)
    requires Compacts(c, a) && BehindSnapshot(c, m) && m.prevLogIndex <= a.LastIndex()
    ensures Compacts(Splice(c, m), Splice(a, m))
  {
    if m.entries != [] {
      var p := if m.prevLogIndex > c.lastSnapshotIndex then m.prevLogIndex else |a.log|;
      AppendedTail(a.log, c.lastSnapshotIndex, p, m.entries);
      if p == |a.log| {
        assert a.log[..p] == a.log && c.log[..p - c.lastSnapshotIndex] == c.log;
      }
    }
  }

  lemma FollowHidesCompaction(c: Node, a: Node, leaderCommit: int)
    requires Compacts(c, a)
    ensures Compacts(FollowCommit(c, leaderCommit), FollowCommit(a, leaderCommit))
  {
  }

  lemma CheckHidesCompaction(c: Node, a: Node, m: AppendArgs)
    requires Compacts(c, a) && BehindSnapshot(c, m) && m.prevLogIndex > 0
    ensures PrevMatches(c, m) == PrevMatches(a, m)
    ensures PrevMatches(c, m) ==> m.prevLogIndex <= a.LastIndex()
  {
    SameEnds(c, a);
  }

  lemma AppendHidesCompaction(c: Node, a: Node, m: AppendArgs)
    requires Compacts(c, a) && (m.term < c.currentTerm || BehindSnapshot(c, m))
    ensures AppendEntries(c, m).1 == AppendEntries(a, m).1
    ensures Compacts(AppendEntries(c, m).0, AppendEntries(a, m).0)
  {
    if m.term >= c.currentTerm {
      var c1, a1 := ObserveLeader(c, m.term, m.leaderId), ObserveLeader(a, m.term, m.leaderId);
      assert Compacts(c1, a1);
      if m.prevLogIndex > 0 { CheckHidesCompaction(c1, a1, m); }
      if m.prevLogIndex <= 0 || PrevMatches(c1, m) {
        SpliceHidesCompaction(c1, a1, m);
        FollowHidesCompaction(Splice(c1, m), Splice(a1, m), m.leaderCommit);
      }
    }
  }

  lemma ProposeHidesCompaction(c: Node, a: Node, command: string)
    requires Compacts(c, a)
    ensures Propose(c, command).1 == Propose(a, command).1 && Propose(c, command).2 == Propose(a, command).2
    ensures Compacts(Propose(c, command).0, Propose(a, command).0)
  {
    AppendingHidesCompaction(c, a, Commands.EntryOf(c.currentTerm, command));
  }

  lemma AppendingHidesCompaction(c: Node, a: Node, e: Entry)
    requires Compacts(c, a)
    ensures Compacts(c.(log := c.log + [e]).Save(), a.(log := a.log + [e]).Save())
  {
    assert (a.log + [e])[c.lastSnapshotIndex..] == c.log + [e];
  }

  lemma SameEntriesFrom(c: Node, a: Node, next: int)
    requires Compacts(c, a) && next > c.lastSnapshotIndex
    ensures EntriesFrom(c, next) == EntriesFrom(a, next)
  {
    if next - c.lastSnapshotIndex <= |c.log| {
      assert c.log[next - c.lastSnapshotIndex - 1..] == a.log[next - 1..];
    }
  }

  lemma SamePrevTerm(c: Node, a: Node, prev: int)
    requires Compacts(c, a) && prev >= c.lastSnapshotIndex
    ensures PrevTermFor(c, prev) == PrevTermFor(a, prev)
  {
    SameEnds(c, a);
  }

  lemma WindowHidesCompaction(c: Node, a: Node, f: int)
    requires Compacts(c, a) && Lookup(c.nextIndex, f) > c.lastSnapshotIndex
    ensures Outbound(c, f) == Outbound(a, f) && Outbound(a, f).SendAppend?
  {
    SameEntriesFrom(c, a, Lookup(c.nextIndex, f));
    SamePrevTerm(c, a, Lookup(c.nextIndex, f) - 1);
  }

  /** Counting looks at the term, the match indexes and the configurations only. */
  lemma CountingIsAlike(n: Node, m: Node, index: int)
    requires n.id == m.id && n.currentTerm == m.currentTerm && n.matchIndex == m.matchIndex && n.config == m.config
    ensures CanCommit(n, index, n.currentTerm) == CanCommit(m, index, m.currentTerm)
  {
    forall nodes: set<int> ensures Holders(n, nodes, index) == Holders(m, nodes, index) { }
  }

  lemma CommitHidesCompaction(c: Node, a: Node)
    requires Compacts(c, a)
    ensures AdvanceCommit(c).commitIdx == AdvanceCommit(a).commitIdx && Compacts(AdvanceCommit(c), AdvanceCommit(a))
  {
    SameEnds(c, a);
    forall index: int ensures CanCommit(c, index, c.currentTerm) == CanCommit(a, index, a.currentTerm) {
      CountingIsAlike(c, a, index);
    }
  }

  /** What a node makes of an outcome that is no refusal. */
  lemma HearingIs(n: Node, f: int, reply: AppendReply)
    requires reply.Reply? ==> reply.success
    ensures HandleAppendReply(n, f, n.currentTerm, n.lastSnapshotIndex, reply)
            == match reply
               case NoReply => n
               case Reply(_, term) =>
                 if term > n.currentTerm then n.(currentTerm := term, votedFor := -1, role := Follower)
                 else AdvanceCommit(Noted(n, f, n.LastIndex()))
  {
  }

  lemma HearingHidesCompaction(c: Node, a: Node, f: int, reply: AppendReply)
    requires Compacts(c, a) && (reply.Reply? ==> reply.success)
    ensures Compacts(HandleAppendReply(c, f, c.currentTerm, c.lastSnapshotIndex, reply),
                     HandleAppendReply(a, f, a.currentTerm, a.lastSnapshotIndex, reply))
  {
    SameEnds(c, a);
    HearingIs(c, f, reply);
    HearingIs(a, f, reply);
    CommitHidesCompaction(Noted(c, f, c.LastIndex()), Noted(a, f, a.LastIndex()));
  }

  lemma AddingHidesCompaction(c: Node, a: Node, id: int)
    requires Compacts(c, a)
    ensures RequestAddServer(c, id).1 == RequestAddServer(a, id).1
    ensures Compacts(RequestAddServer(c, id).0, RequestAddServer(a, id).0)
  {
    var nodes := c.config.oldConfig.nodes + {id};
    assert Compacts(EnterTransition(c, nodes), EnterTransition(a, nodes));
    AppendingHidesCompaction(EnterTransition(c, nodes), EnterTransition(a, nodes),
                             Entry(c.currentTerm, "CONFIG_CHANGE", "", Nil, AddServer(id)));
  }

  lemma RemovingHidesCompaction(c: Node, a: Node, id: int)
    requires Compacts(c, a)
    ensures RequestRemoveServer(c, id).1 == RequestRemoveServer(a, id).1
    ensures Compacts(RequestRemoveServer(c, id).0, RequestRemoveServer(a, id).0)
  {
    var nodes := c.config.oldConfig.nodes - {id};
    assert Compacts(EnterTransition(c, nodes), EnterTransition(a, nodes));
    AppendingHidesCompaction(EnterTransition(c, nodes), EnterTransition(a, nodes),
                             Entry(c.currentTerm, "CONFIG_CHANGE", "", Nil, RemoveServer(id)));
  }

  lemma FinalisingHidesCompaction(c: Node, a: Node)
    requires Compacts(c, a)
    ensures Compacts(FinaliseConfigChange(c).0, FinaliseConfigChange(a).0)
  {
    var config := ConfigState(c.config.Current(), None, false, 0, c.LastIndex());
    assert Compacts(c.(config := config), a.(config := config));
    AppendingHidesCompaction(c.(config := config), a.(config := config),
                             Entry(c.currentTerm, "CONFIG_CHANGE", "", Nil, FinalizeConfig));
  }

  lemma RetrackHidesCompaction(c: Node, a: Node)
    requires Compacts(c, a)
    ensures Compacts(Retrack(c), Retrack(a))
  {
    SameEnds(c, a);
  }

  lemma ConsumingHidesCompaction(c: Node, a: Node, e: Entry)
    requires Compacts(c, a) && e.command != "CLEAN"
    ensures Compacts(Consume(c, e), Consume(a, e))
  {
    if e.command == "CONFIG_CHANGE" {
      FinalisingHidesCompaction(c, a);
      RetrackHidesCompaction(c, a);
    }
  }

  lemma ApplyHidesCompaction(c: Node, a: Node)
    requires Compacts(c, a) && Settled(c) && (NextEntry(c).Some? ==> NextEntry(c).value.command != "CLEAN")
    ensures Compacts(ApplyNext(c), ApplyNext(a))
  {
    SameEnds(c, a);
    assert NextEntry(c) == NextEntry(a);
    assert Compacts(Fetched(c), Fetched(a));
    if NextEntry(c).Some? { ConsumingHidesCompaction(Fetched(c), Fetched(a), NextEntry(c).value); }
  }

  lemma SnapshotHidesCompaction(c: Node, a: Node)
    requires Compacts(c, a)
    ensures Compacts(TakeSnapshot(c).0, a)
  {
    var local := c.commitIdx - c.lastSnapshotIndex;
    if 0 < local <= |c.log| {
      assert c.log[local..] == a.log[c.commitIdx..];
      assert c.log[local - 1] == a.log[c.commitIdx - 1];
    }
  }

  lemma LeadingHidesCompaction(c: Node, a: Node)
    requires Compacts(c, a)
    ensures Compacts(BecomeLeader(c), BecomeLeader(a))
  {
    SameEnds(c, a);
  }

  lemma ElectionHidesCompaction(c: Node, a: Node, replies: seq<bool>)
    requires Compacts(c, a)
    ensures Compacts(ElectionOutcome(c, replies), ElectionOutcome(a, replies))
  {
    assert Compacts(StartElection(c), StartElection(a));
    LeadingHidesCompaction(StartElection(c), StartElection(a));
  }

  // ----- operation sequences -----

  /** One operation other than applying: the same answer, and the nodes stay related. */
  lemma HandlingHidesCompaction(c: Node, a: Node, op: Op)
    requires Compacts(c, a) && op != Apply && (op == Compact || Admissible(c, op))
    ensures Perform(c, op).1 == PerformPlain(a, op).1
    ensures Compacts(Perform(c, op).0, PerformPlain(a, op).0)
  {
    match op
    case Vote(m) => VoteHidesCompaction(c, a, m);
    case Append(m) => AppendHidesCompaction(c, a, m);
    case Submit(command) => ProposeHidesCompaction(c, a, command);
    case Elect(replies) => ElectionHidesCompaction(c, a, replies);
    case Ship(f) => WindowHidesCompaction(c, a, f);
    case Hear(f, reply) => HearingHidesCompaction(c, a, f, reply);
    case Add(id) => AddingHidesCompaction(c, a, id);
    case Remove(id) => RemovingHidesCompaction(c, a, id);
    case Compact => SnapshotHidesCompaction(c, a);
  }

  lemma AppendKeepsApplied(n: Node, m: AppendArgs)
    ensures AppendEntries(n, m).0.lastApplied == n.lastApplied
    ensures AppendEntries(n, m).0.lastSnapshotIndex == n.lastSnapshotIndex
  {
  }

  lemma ApplyAdvances(n: Node)
    ensures ApplyNext(n).lastApplied >= n.lastApplied && ApplyNext(n).lastSnapshotIndex == n.lastSnapshotIndex
  {
  }

  /** Only what has been applied is ever dropped. */
  lemma StaysSettled(c: Node, op: Op)
    requires Settled(c) && Admissible(c, op)
    ensures Settled(Perform(c, op).0)
  {
    match op
    case Append(m) => AppendKeepsApplied(c, m);
    case Apply => ApplyAdvances(c);
    case _ =>
  }

  /** One operation: the same answer, and the nodes stay related. */
  lemma StepHidesCompaction(c: Node, a: Node, op: Op)
    requires Compacts(c, a) && Settled(c) && Admissible(c, op)
    ensures Perform(c, op).1 == PerformPlain(a, op).1
    ensures Compacts(Perform(c, op).0, PerformPlain(a, op).0) && Settled(Perform(c, op).0)
  {
    StaysSettled(c, op);
    if op == Apply { ApplyHidesCompaction(c, a); } else { HandlingHidesCompaction(c, a, op); }
  }

  /** Every operation of the sequence meets its condition when its turn comes. */
  ghost predicate AllAdmissible(c: Node, ops: seq<Op>)
    decreases |ops|
  {
    ops == [] || (Admissible(c, ops[0]) && AllAdmissible(Perform(c, ops[0]).0, ops[1..]))
  }

  ghost function Observations(n: Node, ops: seq<Op>): seq<Observed>
    decreases |ops|
  {
    if ops == [] then []
    else
      var (n', answer) := Perform(n, ops[0]);
      [Observe(n', answer)] + Observations(n', ops[1..])
  }

  ghost function PlainObservations(n: Node, ops: seq<Op>): seq<Observed>
    decreases |ops|
  {
    if ops == [] then []
    else
      var (n', answer) := PerformPlain(n, ops[0]);
      [Observe(n', answer)] + PlainObservations(n', ops[1..])
  }

  /**
   Compaction is invisible: through any sequence of operations, with snapshots at any points at which everything
   committed has been applied, a compacting node gives the answers, makes the commit decisions and holds the store of
   one that never compacts.
  */
  lemma {:induction false} CompactionIsInvisible(c: Node, a: Node, ops: seq<Op>)
    requires Compacts(c, a) && Settled(c) && AllAdmissible(c, ops)
    ensures Observations(c, ops) == PlainObservations(a, ops)
    decreases |ops|
  {
    if ops == [] {
    } else {
      StepHidesCompaction(c, a, ops[0]);
      SameEnds(Perform(c, ops[0]).0, PerformPlain(a, ops[0]).0);
      CompactionIsInvisible(Perform(c, ops[0]).0, PerformPlain(a, ops[0]).0, ops[1..]);
    }
  }

  // ----- snapshots at arbitrary points -----

  /** The nodes are related but for their stores. */
  ghost predicate CompactsButStore(c: Node, a: Node) {
    Compacts(c, a.(store := c.store))
  }

  lemma SpliceIgnoresStore(n: Node, m: AppendArgs, data: Data)
    ensures PrevMatches(n.(store := data), m) == PrevMatches(n, m)
    ensures FollowCommit(Splice(n.(store := data), m), m.leaderCommit)
            == FollowCommit(Splice(n, m), m.leaderCommit).(store := data)
  {
    assert Splice(n.(store := data), m) == Splice(n, m).(store := data);
  }

  lemma AppendIgnoresStore(n: Node, m: AppendArgs, data: Data)
    ensures AppendEntries(n.(store := data), m)
            == (AppendEntries(n, m).0.(store := data), AppendEntries(n, m).1)
  {
    var l := ObserveLeader(n, m.term, m.leaderId);
    assert ObserveLeader(n.(store := data), m.term, m.leaderId) == l.(store := data);
    SpliceIgnoresStore(l, m, data);
  }

  lemma CommitIgnoresStore(n: Node, data: Data)
    ensures AdvanceCommit(n.(store := data)) == AdvanceCommit(n).(store := data)
  {
    forall index: int ensures CanCommit(n.(store := data), index, n.currentTerm) == CanCommit(n, index, n.currentTerm) {
      CountingIsAlike(n.(store := data), n, index);
    }
  }

  lemma HearingIgnoresStore(n: Node, f: int, reply: AppendReply, data: Data)
    requires reply.Reply? ==> reply.success
    ensures HandleAppendReply(n.(store := data), f, n.currentTerm, n.lastSnapshotIndex, reply)
            == HandleAppendReply(n, f, n.currentTerm, n.lastSnapshotIndex, reply).(store := data)
  {
    HearingIs(n, f, reply);
    HearingIs(n.(store := data), f, reply);
    assert Noted(n.(store := data), f, n.LastIndex()) == Noted(n, f, n.LastIndex()).(store := data);
    CommitIgnoresStore(Noted(n, f, n.LastIndex()), data);
  }

  lemma VoteIgnoresStore(n: Node, m: VoteRequest, data: Data)
    ensures RequestVote(n.(store := data), m) == (RequestVote(n, m).0.(store := data), RequestVote(n, m).1)
  {
    assert ObserveCandidate(n.(store := data), m.term) == ObserveCandidate(n, m.term).(store := data);
  }

  lemma ChangeIgnoresStore(n: Node, id: int, data: Data)
    ensures RequestAddServer(n.(store := data), id)
            == (RequestAddServer(n, id).0.(store := data), RequestAddServer(n, id).1)
    ensures RequestRemoveServer(n.(store := data), id)
            == (RequestRemoveServer(n, id).0.(store := data), RequestRemoveServer(n, id).1)
  {
  }

  lemma ShippingIgnoresStore(n: Node, f: int, data: Data)
    ensures Outbound(n.(store := data), f) == Outbound(n, f)
  {
  }

  lemma ElectionIgnoresStore(n: Node, replies: seq<bool>, data: Data)
    ensures ElectionOutcome(n.(store := data), replies) == ElectionOutcome(n, replies).(store := data)
  {
    assert StartElection(n.(store := data)) == StartElection(n).(store := data);
    assert BecomeLeader(StartElection(n).(store := data)) == BecomeLeader(StartElection(n)).(store := data);
  }

  /** No operation but applying and compacting reads the store. */
  lemma HandlingIgnoresStore(n: Node, op: Op, data: Data)
    requires op != Apply && op != Compact && (op.Hear? && op.reply.Reply? ==> op.reply.success)
    ensures Perform(n.(store := data), op) == (Perform(n, op).0.(store := data), Perform(n, op).1)
  {
    match op
    case Vote(m) => VoteIgnoresStore(n, m, data);
    case Append(m) => AppendIgnoresStore(n, m, data);
    case Hear(f, reply) => HearingIgnoresStore(n, f, reply, data);
    case Add(id) => ChangeIgnoresStore(n, id, data);
    case Remove(id) => ChangeIgnoresStore(n, id, data);
    case Ship(f) => ShippingIgnoresStore(n, f, data);
    case Elect(replies) => ElectionIgnoresStore(n, replies, data);
    case Submit(_) =>
  }

  /** No operation but applying writes the store. */
  lemma HandlingKeepsStore(n: Node, op: Op)
    requires op != Apply && (op.Hear? && op.reply.Reply? ==> op.reply.success)
    ensures Perform(n, op).0.store == n.store
  {
    if op != Compact {
      HandlingIgnoresStore(n, op, n.store);
      assert n.(store := n.store) == n;
    }
  }

  /** As `Admissible`, but snapshots may be taken anywhere; what is applied changes nothing but the store. */
  predicate AdmissibleAnywhere(c: Node, a: Node, op: Op) {
    match op
    case Compact => true
    case Apply => NextEntry(a).Some? ==> NextEntry(a).value.command !in {"CLEAN", "CONFIG_CHANGE"}
    case _ => Admissible(c, op)
  }

  ghost predicate AllAdmissibleAnywhere(c: Node, a: Node, ops: seq<Op>)
    decreases |ops|
  {
    ops == []
    || (AdmissibleAnywhere(c, a, ops[0])
        && AllAdmissibleAnywhere(Perform(c, ops[0]).0, PerformPlain(a, ops[0]).0, ops[1..]))
  }

  lemma ApplyChangesStore(n: Node)
    requires NextEntry(n).Some? ==> NextEntry(n).value.command !in {"CLEAN", "CONFIG_CHANGE"}
    ensures ApplyNext(n) == Fetched(n).(store := ApplyNext(n).store, disk := ApplyNext(n).disk)
  {
  }

  lemma ApplyHidesLag(c: Node, a: Node)
    requires CompactsButStore(c, a) && AdmissibleAnywhere(c, a, Apply)
    ensures CompactsButStore(ApplyNext(c), ApplyNext(a))
  {
    assert NextEntry(c).Some? ==> NextEntry(c) == NextEntry(a);
    ApplyChangesStore(a);
    ApplyChangesStore(c);
  }

  lemma StepHidesLag(c: Node, a: Node, op: Op)
    requires CompactsButStore(c, a) && AdmissibleAnywhere(c, a, op)
    ensures Perform(c, op).1 == PerformPlain(a, op).1
    ensures CompactsButStore(Perform(c, op).0, PerformPlain(a, op).0)
  {
    if op == Apply {
      ApplyHidesLag(c, a);
    } else {
      HandlingHidesCompaction(c, a.(store := c.store), op);
      HandlingKeepsStore(c, op);
      if op != Compact { HandlingIgnoresStore(a, op, c.store); }
    }
  }

  lemma SameEndsButStore(c: Node, a: Node)
    requires CompactsButStore(c, a)
    ensures c.LastIndex() == a.LastIndex()
  {
    SameEnds(c, a.(store := c.store));
  }

  /**
   Decisions hide compaction: with snapshots at arbitrary points, also where the consumer lags behind, a compacting
   node gives the answers and makes the commit decisions of one that never compacts. Only the store may differ.
  */
  lemma {:induction false} DecisionsHideCompaction(c: Node, a: Node, ops: seq<Op>, i: nat)
    requires CompactsButStore(c, a) && AllAdmissibleAnywhere(c, a, ops) && i < |ops|
    ensures |Observations(c, ops)| == |PlainObservations(a, ops)| == |ops|
    ensures Observations(c, ops)[i].decision == PlainObservations(a, ops)[i].decision
    decreases |ops|
  {
    var c', a' := Perform(c, ops[0]).0, PerformPlain(a, ops[0]).0;
    StepHidesLag(c, a, ops[0]);
    SameEndsButStore(c', a');
    if |ops| > 1 {
      DecisionsHideCompaction(c', a', ops[1..], if i > 0 then i - 1 else 0);
    } else {
      assert ops[1..] == [];
    }
  }

  // ----- exactly when an append shows it -----

  /** The append is checked and spliced alike by a node that compacts and by one that does not. */
  predicate Compatible(c: Node, a: Node, m: AppendArgs)
    requires Compacts(c, a)
  {
    || m.term < c.currentTerm
    || BehindSnapshot(c, m)
    || (m.prevLogIndex == c.lastSnapshotIndex && c.lastSnapshotTerm != m.prevLogTerm)
    || (0 < m.prevLogIndex < c.lastSnapshotIndex && m.entries == [] && a.log[m.prevLogIndex - 1].term == m.prevLogTerm)
  }

  lemma BoundaryRefused(c: Node, a: Node, m: AppendArgs)
    requires Compacts(c, a) && m.term >= c.currentTerm
    requires 0 < m.prevLogIndex == c.lastSnapshotIndex && c.lastSnapshotTerm != m.prevLogTerm
    ensures !AppendEntries(c, m).1 && !AppendEntries(a, m).1
    ensures Compacts(AppendEntries(c, m).0, AppendEntries(a, m).0)
  {
  }

  lemma HeartbeatBelow(c: Node, a: Node, m: AppendArgs)
    requires Compacts(c, a) && m.term >= c.currentTerm && m.entries == []
    requires 0 < m.prevLogIndex < c.lastSnapshotIndex && a.log[m.prevLogIndex - 1].term == m.prevLogTerm
    ensures AppendEntries(c, m).1 && AppendEntries(a, m).1
    ensures Compacts(AppendEntries(c, m).0, AppendEntries(a, m).0)
  {
    var c1, a1 := ObserveLeader(c, m.term, m.leaderId), ObserveLeader(a, m.term, m.leaderId);
    assert Compacts(c1, a1);
    FollowHidesCompaction(c1, a1, m.leaderCommit);
  }

  /** Otherwise the answers differ, or the last indices do. */
  lemma IncompatibleShows(c: Node, a: Node, m: AppendArgs)
    requires Compacts(c, a) && !Compatible(c, a, m)
    ensures AppendEntries(c, m).1 != AppendEntries(a, m).1
         || AppendEntries(c, m).0.LastIndex() != AppendEntries(a, m).0.LastIndex()
  {
  }

  /** An append gives compaction away exactly when it is not compatible. */
  lemma AppendShowsCompaction(c: Node, a: Node, m: AppendArgs)
    requires Compacts(c, a)
    ensures AppendEntries(c, m).1 == AppendEntries(a, m).1 && Compacts(AppendEntries(c, m).0, AppendEntries(a, m).0)
            <==> Compatible(c, a, m)
  {
    if Compatible(c, a, m) {
      if m.term < c.currentTerm || BehindSnapshot(c, m) {
        AppendHidesCompaction(c, a, m);
      } else if m.prevLogIndex == c.lastSnapshotIndex {
        BoundaryRefused(c, a, m);
      } else {
        HeartbeatBelow(c, a, m);
      }
    } else {
      IncompatibleShows(c, a, m);
      if Compacts(AppendEntries(c, m).0, AppendEntries(a, m).0) {
        SameEnds(AppendEntries(c, m).0, AppendEntries(a, m).0);
      }
    }
  }
}
