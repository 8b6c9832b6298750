/** Votes of one node over any sequence of steps, with crashes and restarts from disk at any point between them. */
module Crashes {
  import opened Types
  import opened NodeSpec

  /** What happens to a node. */
  datatype Action =
    | VoteAsked(request: VoteRequest)
    | Appended(args: AppendArgs)
    | Installed(install: InstallArgs)
    | TimedOut
    | Won
    | Lost
    | Proposed(command: string)
    | AppendAnswered(follower: int, reply: AppendReply)
    | InstallAnswered(follower: int, outcome: InstallReply)
    | Applied
    | Compacted
    | AddAsked(server: int)
    | RemoveAsked(server: int)
    | Crashed

  datatype Vote = Vote(term: nat, candidate: int)

  /** A node, the votes it has granted to candidates that asked, and all its votes, those for itself included. */
  datatype Life = Life(node: Node, granted: set<Vote>, cast: set<Vote>)

  ghost function NodeAfter(n: Node, a: Action): Node {
    match a
    case VoteAsked(m) => RequestVote(n, m).0
    case Appended(m) => AppendEntries(n, m).0
    case Installed(m) => InstallSnapshot(n, m).0
    case TimedOut => StartElection(n)
    case Won => BecomeLeader(n)
    case Lost => n.(role := Follower)
    case Proposed(command) => Propose(n, command).0
    case AppendAnswered(f, reply) => HandleAppendReply(n, f, n.currentTerm, n.lastSnapshotIndex, reply)
    case InstallAnswered(f, outcome) => HandleInstallReply(n, f, n.currentTerm, n.lastSnapshotIndex, outcome)
    case Applied => ApplyNext(n)
    case Compacted => TakeSnapshot(n).0
    case AddAsked(id) => RequestAddServer(n, id).0
    case RemoveAsked(id) => RequestRemoveServer(n, id).0
    case Crashed => Recover(n.id, n.peers, n.disk)
  }

  /** The vote that the action makes the node grant to a candidate. */
  function GrantedIn(n: Node, a: Action): set<Vote> {
    if a.VoteAsked? && RequestVote(n, a.request).1 then {Vote(a.request.term, a.request.candidate)} else {}
  }

  /** The vote that the action makes the node cast for itself. */
  function SelfVoteIn(n: Node, a: Action): set<Vote> {
    if a.TimedOut? && n.role != Leader then {Vote(n.currentTerm + 1, n.id)} else {}
  }

  ghost function Lived(l: Life, a: Action): Life {
    Life(NodeAfter(l.node, a),
         l.granted + GrantedIn(l.node, a),
         l.cast + GrantedIn(l.node, a) + SelfVoteIn(l.node, a))
  }

  ghost function LifeAfter(n: Node, actions: seq<Action>): Life {
    if actions == [] then Life(n, {}, {}) else Lived(LifeAfter(n, actions[..|actions| - 1]), actions[|actions| - 1])
  }

  /** Candidates have identifiers; -1 stands for nobody. */
  predicate Genuine(a: Action) {
    a.VoteAsked? ==> a.request.candidate != -1
  }

  /** The action does not execute a CLEAN, which removes the saved state. */
  predicate KeepsState(n: Node, a: Action) {
    a.Applied? && NextEntry(n).Some? ==> NextEntry(n).value.command != "CLEAN"
  }

  ghost predicate Safe(n: Node, actions: seq<Action>, k: int)
    requires 0 <= k < |actions|
  {
    Genuine(actions[k]) && KeepsState(LifeAfter(n, actions[..k]).node, actions[k])
  }

  /** No candidate asks in nobody's name, and no CLEAN is executed. */
  ghost predicate NoClean(n: Node, actions: seq<Action>) {
    forall k :: 0 <= k < |actions| ==> Safe(n, actions, k)
  }

  // ----- votes granted to candidates -----

  /** The record rules out any other vote of that term: it is of a later term, or names the same candidate. */
  predicate Remembers(term: nat, votedFor: int, v: Vote) {
    v.candidate != -1 && (term > v.term || (term == v.term && votedFor == v.candidate))
  }

  predicate MemoryRemembers(n: Node, v: Vote) {
    Remembers(n.currentTerm, n.votedFor, v)
  }

  predicate DiskRemembers(n: Node, v: Vote) {
    n.disk.state.Some? && Remembers(n.disk.state.value.term, n.disk.state.value.votedFor, v)
  }

  lemma RememberedByAppend(n: Node, m: AppendArgs, v: Vote)
    requires MemoryRemembers(n, v)
    ensures MemoryRemembers(AppendEntries(n, m).0, v)
    ensures DiskRemembers(n, v) ==> DiskRemembers(AppendEntries(n, m).0, v)
  {
  }

  lemma RememberedByApply(n: Node, v: Vote)
    requires MemoryRemembers(n, v)
    ensures MemoryRemembers(ApplyNext(n), v)
    ensures DiskRemembers(n, v) && KeepsState(n, Applied) ==> DiskRemembers(ApplyNext(n), v)
  {
  }

  lemma RememberedByInstall(n: Node, m: InstallArgs, v: Vote)
    requires MemoryRemembers(n, v)
    ensures MemoryRemembers(InstallSnapshot(n, m).0, v)
    ensures DiskRemembers(n, v) ==> DiskRemembers(InstallSnapshot(n, m).0, v)
  {
  }

  lemma RememberedByChange(n: Node, id: int, v: Vote)
    requires MemoryRemembers(n, v)
    ensures MemoryRemembers(RequestAddServer(n, id).0, v) && MemoryRemembers(RequestRemoveServer(n, id).0, v)
    ensures DiskRemembers(n, v) ==>
              DiskRemembers(RequestAddServer(n, id).0, v) && DiskRemembers(RequestRemoveServer(n, id).0, v)
  {
  }

  /** No action but a crash makes the node forget a vote, and none but executing a CLEAN makes its disk forget it. */
  lemma VoteIsRemembered(n: Node, a: Action, v: Vote)
    requires MemoryRemembers(n, v) && Genuine(a)
    ensures !a.Crashed? ==> MemoryRemembers(NodeAfter(n, a), v)
    ensures DiskRemembers(n, v) && KeepsState(n, a) ==> DiskRemembers(NodeAfter(n, a), v)
    ensures a.Crashed? && DiskRemembers(n, v) ==> MemoryRemembers(NodeAfter(n, a), v)
  {
    match a
    case Appended(m) => RememberedByAppend(n, m, v);
    case Applied => RememberedByApply(n, v);
    case Installed(m) => RememberedByInstall(n, m, v);
    case AddAsked(id) => RememberedByChange(n, id, v);
    case RemoveAsked(id) => RememberedByChange(n, id, v);
    case _ =>
  }

  /** A granted vote is in memory and on disk, and no other vote of that term was remembered before. */
  lemma GrantIsRecorded(n: Node, m: VoteRequest)
    requires m.candidate != -1 && RequestVote(n, m).1
    ensures MemoryRemembers(RequestVote(n, m).0, Vote(m.term, m.candidate))
    ensures DiskRemembers(RequestVote(n, m).0, Vote(m.term, m.candidate))
    ensures forall v: Vote :: v.term == m.term && MemoryRemembers(n, v) ==> v.candidate == m.candidate
  {
  }

  /** A grant of the last action, or one of the actions before it. */
  lemma LastGrant(n: Node, actions: seq<Action>, v: Vote)
    requires actions != [] && v in LifeAfter(n, actions).granted
    ensures var l, last := LifeAfter(n, actions[..|actions| - 1]), actions[|actions| - 1];
      v in l.granted
      || (last.VoteAsked? && RequestVote(l.node, last.request).1
            && v == Vote(last.request.term, last.request.candidate))
  {
  }

  lemma NoCleanBefore(n: Node, actions: seq<Action>)
    requires NoClean(n, actions) && actions != []
    ensures NoClean(n, actions[..|actions| - 1])
    ensures Genuine(actions[|actions| - 1])
    ensures KeepsState(LifeAfter(n, actions[..|actions| - 1]).node, actions[|actions| - 1])
  {
    var front := actions[..|actions| - 1];
    assert Safe(n, actions, |front|);
    forall k | 0 <= k < |front| ensures Safe(n, front, k) {
      assert Safe(n, actions, k);
      assert front[..k] == actions[..k];
    }
  }

  /** The last state, and the state before the last action. */
  lemma LastAction(n: Node, actions: seq<Action>)
    requires actions != []
    ensures LifeAfter(n, actions).node
            == NodeAfter(LifeAfter(n, actions[..|actions| - 1]).node, actions[|actions| - 1])
  {
  }

  /** Every granted vote stays in memory and on disk. */
  lemma {:induction false} GrantsAreRecorded(n: Node, actions: seq<Action>, v: Vote)
    requires NoClean(n, actions) && v in LifeAfter(n, actions).granted
    ensures MemoryRemembers(LifeAfter(n, actions).node, v) && DiskRemembers(LifeAfter(n, actions).node, v)
    decreases |actions|
  {
    var front, last := actions[..|actions| - 1], actions[|actions| - 1];
    NoCleanBefore(n, actions);
    LastGrant(n, actions, v);
    LastAction(n, actions);
    var l := LifeAfter(n, front);
    if v in l.granted {
      GrantsAreRecorded(n, front, v);
      VoteIsRemembered(l.node, last, v);
    } else {
      GrantIsRecorded(l.node, last.request);
    }
  }

  /**
   Votes survive crashes: whatever happens, crashes at any points included, a node that executes no CLEAN never grants
   its vote to two candidates in one term.
  */
  lemma {:induction false} VotesSurviveCrashes(n: Node, actions: seq<Action>, u: Vote, v: Vote)
    requires NoClean(n, actions)
    requires u in LifeAfter(n, actions).granted && v in LifeAfter(n, actions).granted && u.term == v.term
    ensures u == v
    decreases |actions|
  {
    var front, last := actions[..|actions| - 1], actions[|actions| - 1];
    NoCleanBefore(n, actions);
    LastGrant(n, actions, u);
    LastGrant(n, actions, v);
    var l := LifeAfter(n, front);
    if u in l.granted && v in l.granted {
      VotesSurviveCrashes(n, front, u, v);
    } else if u in l.granted {
      GrantsAreRecorded(n, front, u);
      GrantIsRecorded(l.node, last.request);
    } else if v in l.granted {
      GrantsAreRecorded(n, front, v);
      GrantIsRecorded(l.node, last.request);
    }
  }

  // ----- all votes, when nothing is lost -----

  /** The action is not a crash that loses the term or the vote. */
  predicate LosesNoVote(n: Node, a: Action) {
    a.Crashed? ==> LoadState(n.disk).term == n.currentTerm && LoadState(n.disk).votedFor == n.votedFor
  }

  ghost predicate Harmless(n: Node, actions: seq<Action>, k: int)
    requires 0 <= k < |actions|
  {
    Genuine(actions[k]) && LosesNoVote(LifeAfter(n, actions[..k]).node, actions[k])
  }

  ghost predicate NothingLost(n: Node, actions: seq<Action>) {
    n.id != -1 && forall k :: 0 <= k < |actions| ==> Harmless(n, actions, k)
  }

  lemma NothingLostBefore(n: Node, actions: seq<Action>)
    requires NothingLost(n, actions) && actions != []
    ensures NothingLost(n, actions[..|actions| - 1])
    ensures Genuine(actions[|actions| - 1])
    ensures LosesNoVote(LifeAfter(n, actions[..|actions| - 1]).node, actions[|actions| - 1])
  {
    var front := actions[..|actions| - 1];
    assert Harmless(n, actions, |front|);
    forall k | 0 <= k < |front| ensures Harmless(n, front, k) {
      assert Harmless(n, actions, k);
      assert front[..k] == actions[..k];
    }
  }

  lemma IdIsKept(n: Node, a: Action)
    ensures NodeAfter(n, a).id == n.id
  {
    match a
    case Appended(m) => assert AppendEntries(n, m).0.id == n.id;
    case Applied => assert ApplyNext(n).id == n.id;
    case _ =>
  }

  lemma {:induction false} SameNode(n: Node, actions: seq<Action>)
    ensures LifeAfter(n, actions).node.id == n.id
    decreases |actions|
  {
    if actions == [] {
    } else {
      SameNode(n, actions[..|actions| - 1]);
      IdIsKept(LifeAfter(n, actions[..|actions| - 1]).node, actions[|actions| - 1]);
      LastAction(n, actions);
    }
  }

  predicate CastIn(n: Node, a: Action, v: Vote) {
    v in GrantedIn(n, a) || v in SelfVoteIn(n, a)
  }

  lemma LastCast(n: Node, actions: seq<Action>, v: Vote)
    requires actions != [] && v in LifeAfter(n, actions).cast
    ensures var l, last := LifeAfter(n, actions[..|actions| - 1]), actions[|actions| - 1];
      v in l.cast || CastIn(l.node, last, v)
  {
  }

  /** A vote just cast is in memory, and no other vote of that term was remembered before. */
  lemma CastIsRemembered(n: Node, a: Action, v: Vote)
    requires CastIn(n, a, v) && Genuine(a) && n.id != -1
    ensures MemoryRemembers(NodeAfter(n, a), v)
    ensures forall u: Vote :: u.term == v.term && MemoryRemembers(n, u) ==> u == v
  {
    if a.VoteAsked? { GrantIsRecorded(n, a.request); }
  }

  lemma {:induction false} CastsAreRemembered(n: Node, actions: seq<Action>, v: Vote)
    requires NothingLost(n, actions) && v in LifeAfter(n, actions).cast
    ensures MemoryRemembers(LifeAfter(n, actions).node, v)
    decreases |actions|
  {
    var front, last := actions[..|actions| - 1], actions[|actions| - 1];
    NothingLostBefore(n, actions);
    LastCast(n, actions, v);
    LastAction(n, actions);
    SameNode(n, front);
    var l := LifeAfter(n, front);
    if v in l.cast {
      CastsAreRemembered(n, front, v);
      VoteIsRemembered(l.node, last, v);
    } else {
      CastIsRemembered(l.node, last, v);
    }
  }

  /**
   When no crash loses the term or the vote, all votes of one term agree, those that a candidate casts for itself
   included, and even if the node executes a CLEAN.
  */
  lemma {:induction false} AllVotesAgree(n: Node, actions: seq<Action>, u: Vote, v: Vote)
    requires NothingLost(n, actions)
    requires u in LifeAfter(n, actions).cast && v in LifeAfter(n, actions).cast && u.term == v.term
    ensures u == v
    decreases |actions|
  {
    var front, last := actions[..|actions| - 1], actions[|actions| - 1];
    NothingLostBefore(n, actions);
    LastCast(n, actions, u);
    LastCast(n, actions, v);
    SameNode(n, front);
    var l := LifeAfter(n, front);
    if u in l.cast && v in l.cast {
      AllVotesAgree(n, front, u, v);
    } else if u in l.cast {
      CastsAreRemembered(n, front, u);
      CastIsRemembered(l.node, last, v);
    } else if v in l.cast {
      CastsAreRemembered(n, front, v);
      CastIsRemembered(l.node, last, u);
    }
  }

  // ----- exactly which crashes, and which replies, lose a vote -----

  /** A request in the node's term, for another candidate than the one it has voted for. */
  predicate Competes(n: Node, m: VoteRequest) {
    m.term == n.currentTerm && m.candidate != n.votedFor && m.candidate != -1
  }

  /**
   After a crash a node can vote for somebody else in the same term exactly when an older term, or another vote or
   none, was on disk.
  */
  lemma CrashLosesVote(n: Node)
    requires n.votedFor != -1
    ensures (exists m :: Competes(n, m) && RequestVote(Recover(n.id, n.peers, n.disk), m).1)
            <==> var saved := LoadState(n.disk);
                 saved.term < n.currentTerm || (saved.term == n.currentTerm && saved.votedFor != n.votedFor)
  {
    var saved := LoadState(n.disk);
    var r := Recover(n.id, n.peers, n.disk);
    if saved.term < n.currentTerm || (saved.term == n.currentTerm && saved.votedFor != n.votedFor) {
      var other := if saved.term == n.currentTerm && saved.votedFor != -1 then saved.votedFor
                   else if n.votedFor == 0 then 1 else 0;
      var m := VoteRequest(n.currentTerm, other, r.LastIndex(), r.LastTerm());
      assert Competes(n, m) && RequestVote(r, m).1;
    }
  }

  /** A node that stands for election has not saved its vote, so a crash before its next save loses it. */
  lemma StandingIsUnsaved(n: Node)
    requires n.role != Leader && n.id != -1 && LoadState(n.disk).term <= n.currentTerm
    ensures var n' := StartElection(n);
      exists m :: Competes(n', m) && RequestVote(Recover(n'.id, n'.peers, n'.disk), m).1
  {
    CrashLosesVote(StartElection(n));
  }

  /** A request for the candidate, in the given term and with a log as good as the node's own. */
  function Ask(n: Node, term: nat, candidate: int): VoteRequest {
    VoteRequest(term, candidate, n.LastIndex(), n.LastTerm())
  }

  lemma CleanRemovesState(n: Node)
    requires NextEntry(n).Some? && NextEntry(n).value.command == "CLEAN"
    ensures LoadState(ApplyNext(n).disk) == Saved(0, -1, [])
  {
  }

  lemma FreshGrants(n: Node, term: nat, candidate: int)
    requires term > n.currentTerm
    ensures RequestVote(n, Ask(n, term, candidate)).1
    ensures NextEntry(RequestVote(n, Ask(n, term, candidate)).0) == NextEntry(n)
  {
  }

  /** Executing a CLEAN removes the saved vote, so that a node that then crashes votes again in the same term. */
  lemma CleanForgetsVotes(n: Node, term: nat)
    requires NextEntry(n).Some? && NextEntry(n).value.command == "CLEAN"
    requires term > n.currentTerm
    ensures var voted := Lived(Life(n, {}, {}), VoteAsked(Ask(n, term, 2)));
      var crashed := Lived(Lived(voted, Applied), Crashed);
      var l := Lived(crashed, VoteAsked(Ask(crashed.node, term, 3)));
      Vote(term, 2) in l.granted && Vote(term, 3) in l.granted
  {
    var voted := Lived(Life(n, {}, {}), VoteAsked(Ask(n, term, 2)));
    FreshGrants(n, term, 2);
    CleanRemovesState(voted.node);
    var crashed := Lived(Lived(voted, Applied), Crashed);
    assert crashed.node.currentTerm == 0;
    FreshGrants(crashed.node, term, 3);
  }

  /**
   The answer to an append that was sent in an older term leaves the node's vote alone exactly when it names no later
   term than the append's, or a later one than the node's. In a step that reads and settles at once both are one.
  */
  lemma StaleReplyKeepsVote(n: Node, f: int, sentTerm: nat, sentSnapshotIndex: nat, success: bool, newTerm: nat)
    requires n.votedFor != -1
    ensures MemoryRemembers(HandleAppendReply(n, f, sentTerm, sentSnapshotIndex, Reply(success, newTerm)),
                            Vote(n.currentTerm, n.votedFor))
            <==> newTerm <= sentTerm || newTerm > n.currentTerm
  {
  }
}
