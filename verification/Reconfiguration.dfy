/** What a membership change comes to: what may be committed during it, and which nodes are members after it. */
module Reconfiguration {
  import opened Types
  import opened NodeSpec
  import opened Membership
  import CommitIndex

  // ----- what is committed during a change -----

  /**
   Whatever a leader commits, during a change of the membership or outside one, a quorum of every configuration in force
   is known to hold: itself and the followers that it counts.
  */
  lemma CommittedIsAccepted(n: Node)
    requires ConfigOk(n) && AdvanceCommit(n).commitIdx > n.commitIdx
    ensures Accepts(n.config, Replicas(n, AdvanceCommit(n).commitIdx))
    ensures AdvanceCommit(n).commitIdx <= n.LastIndex()
  {
    CanCommitIsAcceptance(n, AdvanceCommit(n).commitIdx);
  }

  /** And it commits its majority index exactly when that lies ahead, within its log, and is so held. */
  lemma CommitsExactly(n: Node)
    requires ConfigOk(n) && n.role == Leader
    ensures var v := CommitIndex.Majority(n.matchIndex, n.LastIndex());
      && (AdvanceCommit(n).commitIdx > n.commitIdx
          <==> n.commitIdx < v <= n.LastIndex() && Accepts(n.config, Replicas(n, v)))
      && AdvanceCommit(n) == n.(commitIdx := if AdvanceCommit(n).commitIdx > n.commitIdx then v else n.commitIdx)
  {
    CanCommitIsAcceptance(n, CommitIndex.Majority(n.matchIndex, n.LastIndex()));
  }

  /** A leader that keeps the given configuration, whatever it knows of its followers, and advances. */
  ghost predicate Commits(n: Node, id: int, config: ConfigState) {
    ConfigOk(n) && n.id == id && n.config == config && AdvanceCommit(n).commitIdx > n.commitIdx
  }

  /** The nodes that it counts for what it commits. */
  ghost function Holding(n: Node): set<int> {
    Replicas(n, AdvanceCommit(n).commitIdx)
  }

  /**
   The commit chain: at every point of every sequence of changes, what is committed before a change and what is
   committed after it are known to be held by a common node.
  */
  lemma CommitChain(n: Node, changes: seq<Change>, k: nat, before: Node, after: Node)
    requires ConfigOk(n) && k < |changes|
    requires Commits(before, n.id, After(n, changes[..k]).config)
    requires Commits(after, n.id, After(n, changes[..k + 1]).config)
    ensures Holding(before) * Holding(after) != {}
  {
    CommittedIsAccepted(before);
    CommittedIsAccepted(after);
    QuorumChain(n, changes, k, Holding(before), Holding(after));
  }

  // ----- what a request does -----

  /** A leader takes the request up: to add a node that is no member, or to remove another one that is. */
  predicate Accepted(n: Node, change: Change) {
    n.role == Leader &&
    match change
    case Add(server) => server !in n.config.oldConfig.nodes
    case Remove(server) => server in n.config.oldConfig.nodes && server != n.id
    case Finalise => false
  }

  /** The members that the request asks for. */
  function Target(n: Node, change: Change): set<int> {
    match change
    case Add(server) => n.config.oldConfig.nodes + {server}
    case Remove(server) => n.config.oldConfig.nodes - {server}
    case Finalise => n.config.oldConfig.nodes
  }

  function Announcing(change: Change): ConfigChange {
    match change
    case Add(server) => AddServer(server)
    case Remove(server) => RemoveServer(server)
    case Finalise => FinalizeConfig
  }

  /** The change is pending: it will lead to these members, and its entry stands where the node says. */
  predicate Pending(n: Node, members: set<int>) {
    && n.config.inTransition && n.config.newConfig.Some? && n.config.newConfig.value.nodes == members
    && n.config.newConfig.value.index == n.config.oldConfig.index + 1
  }

  /** Whether the request is taken up, and all that it then changes. */
  lemma RequestIsPending(n: Node, change: Change)
    requires change != Finalise
    ensures Accepted(n, change) <==>
            (match change
             case Add(server) => RequestAddServer(n, server).1
             case Remove(server) => RequestRemoveServer(n, server).1
             case Finalise => false)
    ensures !Accepted(n, change) ==> Changed(n, change) == n
    ensures Accepted(n, change) ==>
      var n' := Changed(n, change);
      && Pending(n', Target(n, change)) && n'.config.oldConfig == n.config.oldConfig
      && n'.log == n.log + [Entry(n.currentTerm, "CONFIG_CHANGE", "", Nil, Announcing(change))]
      && n'.config.jointConfigIndex == n'.LastIndex()
  {
  }

  /** A new server becomes a peer that is shipped what follows the request, and does not count for any entry yet. */
  lemma AddedIsUncounted(n: Node, server: int, index: int)
    requires Accepted(n, Add(server)) && server != n.id && index >= 1
    ensures var n' := Changed(n, Add(server));
      && server in n'.peers && n.peers <= n'.peers && n'.nextIndex[server] == n'.LastIndex() + 1
      && server !in Replicas(n', index)
      && (forall f :: f != server ==> (f in Replicas(n', index) <==> f in Replicas(n, index)))
  {
    var n' := Changed(n, Add(server));
    forall f | f != server ensures f in Replicas(n', index) <==> f in Replicas(n, index) {
      assert Lookup(n'.matchIndex, f) == Lookup(n.matchIndex, f);
      if f in n'.matchIndex && f != n.id { assert f in n.matchIndex; }
    }
  }

  /** A server asked to be removed no longer counts for any entry; it stays a peer. */
  lemma RemovedIsUncounted(n: Node, server: int, index: int)
    requires Accepted(n, Remove(server)) && index >= 1
    ensures var n' := Changed(n, Remove(server));
      n'.peers == n.peers && server !in n'.nextIndex && server !in Replicas(n', index)
  {
  }

  // ----- what finalising does -----

  /** The pending configuration becomes the only one, and the entry that says so follows the log. */
  lemma FinaliseAdopts(n: Node, members: set<int>)
    requires Pending(n, members)
    ensures var n' := Changed(n, Finalise);
      && FinaliseConfigChange(n).1
      && !n'.config.inTransition && n'.config.newConfig == None && n'.config.oldConfig.nodes == members
      && n'.config.oldConfig.index == n.config.oldConfig.index + 1
      && n'.log == n.log + [Entry(n.currentTerm, "CONFIG_CHANGE", "", Nil, FinalizeConfig)]
      && n'.config.finalConfigIndex == n.LastIndex() && n'.config.jointConfigIndex == 0
  {
  }

  /** Without a pending change there is nothing to finalise. */
  lemma FinaliseRefused(n: Node)
    requires !n.config.inTransition
    ensures !FinaliseConfigChange(n).1 && Changed(n, Finalise) == n
  {
  }

  /** None of the changes between two points is taken up or finalises. */
  ghost predicate NothingBetween(n: Node, changes: seq<Change>, lo: nat, hi: nat)
    requires hi <= |changes|
  {
    forall l {:trigger changes[l]} :: lo <= l < hi ==>
      changes[l] != Finalise && !Accepted(After(n, changes[..l]), changes[l])
  }

  lemma AfterNext(n: Node, changes: seq<Change>, k: nat)
    requires k < |changes|
    ensures After(n, changes[..k + 1]) == Changed(After(n, changes[..k]), changes[k])
  {
    assert changes[..k + 1][..k] == changes[..k];
  }

  lemma {:induction false} NothingChanges(n: Node, changes: seq<Change>, lo: nat, hi: nat)
    requires lo <= hi <= |changes| && NothingBetween(n, changes, lo, hi)
    ensures After(n, changes[..hi]) == After(n, changes[..lo])
    decreases hi
  {
    if lo == hi {
    } else {
      NothingChanges(n, changes, lo, hi - 1);
      AfterNext(n, changes, hi - 1);
      RequestIsPending(After(n, changes[..hi - 1]), changes[hi - 1]);
    }
  }

  /**
   Over any sequence of changes: a request that is taken up, and is the last to be before the change is finalised,
   leaves exactly the members that it asked for, those at the request with the server added or taken out.
  */
  lemma FinalisedIsAsked(n: Node, changes: seq<Change>, k: nat, j: nat)
    requires k < j < |changes| && changes[j] == Finalise && changes[k] != Finalise
    requires Accepted(After(n, changes[..k]), changes[k]) && NothingBetween(n, changes, k + 1, j)
    ensures After(n, changes[..j + 1]).config.oldConfig.nodes == Target(After(n, changes[..k]), changes[k])
    ensures !After(n, changes[..j + 1]).config.inTransition
  {
    AfterNext(n, changes, k);
    RequestIsPending(After(n, changes[..k]), changes[k]);
    NothingChanges(n, changes, k + 1, j);
    AfterNext(n, changes, j);
    FinaliseAdopts(After(n, changes[..j]), Target(After(n, changes[..k]), changes[k]));
  }

  /** The members stay what they are until a change is finalised. */
  lemma {:induction false} MembersStay(n: Node, changes: seq<Change>, k: nat, j: nat)
    requires k <= j <= |changes| && forall l :: k <= l < j ==> changes[l] != Finalise
    ensures After(n, changes[..j]).config.oldConfig == After(n, changes[..k]).config.oldConfig
    decreases j
  {
    if k == j {
    } else {
      MembersStay(n, changes, k, j - 1);
      AfterNext(n, changes, j - 1);
      RequestIsPending(After(n, changes[..j - 1]), changes[j - 1]);
    }
  }

  // ----- what applying a configuration entry does -----

  predicate Asks(change: ConfigChange) {
    change.AddServer? || change.RemoveServer?
  }

  /** A leader that applies the entry of a change finalises the pending one; anyone else leaves its configuration. */
  lemma AppliedChangeIsFinalised(n: Node, members: set<int>)
    requires NextEntry(n).Some? && NextEntry(n).value.command == "CONFIG_CHANGE" && Asks(NextEntry(n).value.change)
    requires Pending(n, members)
    ensures n.role == Leader ==>
      && ApplyNext(n).config.oldConfig.nodes == members && !ApplyNext(n).config.inTransition
      && ApplyNext(n).log == n.log + [Entry(n.currentTerm, "CONFIG_CHANGE", "", Nil, FinalizeConfig)]
    ensures n.role != Leader ==> ApplyNext(n).config == n.config && ApplyNext(n).log == n.log
    ensures ApplyNext(n).lastApplied == n.lastApplied + 1 && ApplyNext(n).store == n.store
  {
    FinaliseAdopts(Fetched(n), members);
  }

  /** Applying the final entry tracks exactly the members: those tracked as before, new ones from the end of the log. */
  lemma RetrackKeepsKnown(n: Node)
    requires n.config.Valid()
    ensures var n' := HandleConfigChange(n, FinalizeConfig);
      var nodes := n.config.Current().nodes;
      && n'.matchIndex.Keys == nodes
      && (forall f :: f in nodes ==>
            && n'.matchIndex[f] == Lookup(n.matchIndex, f)
            && f in n'.nextIndex
            && n'.nextIndex[f] == if f in n.nextIndex then n.nextIndex[f] else n.LastIndex() + 1)
      && n'.config == n.config && n'.log == n.log
  {
  }
}
