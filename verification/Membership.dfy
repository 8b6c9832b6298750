/** The joint-consensus configuration machine: its invariant, its quorums, and the leader's median against counting. */
module Membership {
  import opened Types
  import opened Sets
  import opened NodeSpec
  import CommitIndex

  // ----- the configuration machine -----

  /** A request to change the membership, or the end of the pending change. */
  datatype Change = Add(server: int) | Remove(server: int) | Finalise

  function Changed(n: Node, change: Change): Node {
    match change
    case Add(server) => RequestAddServer(n, server).0
    case Remove(server) => RequestRemoveServer(n, server).0
    case Finalise => FinaliseConfigChange(n).0
  }

  function After(n: Node, changes: seq<Change>): Node {
    if changes == [] then n else Changed(After(n, changes[..|changes| - 1]), changes[|changes| - 1])
  }

  predicate DifferByOne(a: set<int>, b: set<int>) {
    exists x :: x in a + b && ((x !in a && b == a + {x}) || (x in a && b == a - {x}))
  }

  /** The node is in every configuration it keeps, and a pending one differs from the old one by exactly one node. */
  predicate ConfigOk(n: Node) {
    && n.config.Valid()
    && n.id in n.config.oldConfig.nodes
    && (n.config.inTransition ==>
          && n.id in n.config.newConfig.value.nodes
          && DifferByOne(n.config.oldConfig.nodes, n.config.newConfig.value.nodes))
  }

  /** A node that has just started has its configurations in order. */
  lemma StartsWithConfig(id: int, peers: set<int>, d: Disk)
    ensures ConfigOk(Recover(id, peers, d))
  {
  }

  lemma ChangeKeepsConfig(n: Node, change: Change)
    requires ConfigOk(n)
    ensures ConfigOk(Changed(n, change)) && Changed(n, change).id == n.id
  {
    var nodes := n.config.oldConfig.nodes;
    match change
    case Add(server) =>
      if server !in nodes {
        assert server in nodes + (nodes + {server});
        assert DifferByOne(nodes, nodes + {server});
      }
    case Remove(server) =>
      if server in nodes {
        assert server in nodes + (nodes - {server});
        assert DifferByOne(nodes, nodes - {server});
      }
    case Finalise =>
  }

  /** Over any sequence of changes, also ones asked for while another is pending, the configurations stay in order. */
  lemma {:induction false} ChangesKeepConfig(n: Node, changes: seq<Change>)
    requires ConfigOk(n)
    ensures ConfigOk(After(n, changes)) && After(n, changes).id == n.id
    decreases |changes|
  {
    if changes == [] {
    } else {
      ChangesKeepConfig(n, changes[..|changes| - 1]);
      ChangeKeepsConfig(After(n, changes[..|changes| - 1]), changes[|changes| - 1]);
    }
  }

  // ----- quorums -----

  predicate IsMajorityOf(replicas: set<int>, nodes: set<int>) {
    |replicas * nodes| > |nodes| / 2
  }

  /** The replicas are a majority of the old configuration and, during a change, of the pending one as well. */
  predicate Accepts(config: ConfigState, replicas: set<int>) {
    && IsMajorityOf(replicas, config.oldConfig.nodes)
    && (config.inTransition && config.newConfig.Some? ==> IsMajorityOf(replicas, config.newConfig.value.nodes))
  }

  /** The nodes that a leader counts for an entry: itself, and all that are known to hold it. */
  function Replicas(n: Node, index: int): set<int> {
    {n.id} + Holders(n, n.matchIndex.Keys + n.config.oldConfig.nodes + n.config.Current().nodes, index)
  }

  lemma CountedInConfig(n: Node, nodes: set<int>, index: int)
    requires n.id in nodes && nodes <= n.matchIndex.Keys + n.config.oldConfig.nodes + n.config.Current().nodes
    ensures HeldByMajority(n, nodes, index) <==> IsMajorityOf(Replicas(n, index), nodes)
  {
    assert Replicas(n, index) * nodes == {n.id} + Holders(n, nodes, index);
  }

  /** `CanCommit` accepts exactly when the counted replicas are a quorum of the configurations in force. */
  lemma CanCommitIsAcceptance(n: Node, index: int)
    requires ConfigOk(n)
    ensures CanCommit(n, index, n.currentTerm) <==> Accepts(n.config, Replicas(n, index))
  {
    CountedInConfig(n, n.config.oldConfig.nodes, index);
    if n.config.inTransition { CountedInConfig(n, n.config.newConfig.value.nodes, index); }
  }

  lemma MajoritiesOfOneConfigMeet(nodes: set<int>, a: set<int>, b: set<int>)
    requires IsMajorityOf(a, nodes) && IsMajorityOf(b, nodes)
    ensures a * b != {}
  {
    var x := MajoritiesMeet(nodes, a * nodes, b * nodes);
    assert x in a * b;
  }

  /** Whatever is accepted before a change shares a node with whatever is accepted after it. */
  lemma QuorumsMeetAcrossChange(n: Node, change: Change, before: set<int>, after: set<int>)
    requires ConfigOk(n)
    requires Accepts(n.config, before) && Accepts(Changed(n, change).config, after)
    ensures before * after != {}
  {
    if change == Finalise && n.config.inTransition {
      MajoritiesOfOneConfigMeet(n.config.newConfig.value.nodes, before, after);
    } else {
      MajoritiesOfOneConfigMeet(n.config.oldConfig.nodes, before, after);
    }
  }

  /** The quorum chain: this holds at every point of every sequence of changes. */
  lemma QuorumChain(n: Node, changes: seq<Change>, k: nat, before: set<int>, after: set<int>)
    requires ConfigOk(n) && k < |changes|
    requires Accepts(After(n, changes[..k]).config, before) && Accepts(After(n, changes[..k + 1]).config, after)
    ensures before * after != {}
  {
    ChangesKeepConfig(n, changes[..k]);
    assert changes[..k + 1][..k] == changes[..k];
    QuorumsMeetAcrossChange(After(n, changes[..k]), changes[k], before, after);
  }

  // ----- the leader's median against counting -----

  /** The leader tracks exactly the other nodes of its only configuration. */
  predicate TracksConfig(n: Node) {
    && !n.config.inTransition
    && n.id in n.config.oldConfig.nodes
    && n.matchIndex.Keys == n.config.oldConfig.nodes - {n.id}
  }

  /**
   Outside a transition, an index within the log may be committed exactly when it is at most the majority index: the
   sorted median loses nothing against counting.
  */
  lemma MedianMeetsCounting(n: Node, index: int)
    requires TracksConfig(n) && 1 <= index <= n.LastIndex()
    ensures CanCommit(n, index, n.currentTerm) <==> index <= CommitIndex.Majority(n.matchIndex, n.LastIndex())
  {
    var nodes := n.config.oldConfig.nodes;
    CommitIndex.MajorityBounds(n.matchIndex, n.LastIndex(), index);
    assert Holders(n, nodes, index) == CommitIndex.Reaching(n.matchIndex, n.matchIndex.Keys, index);
    assert |n.matchIndex| == |n.matchIndex.Keys| == |nodes| - 1;
  }

  /** No follower is tracked beyond the leader's log, so neither is the majority. */
  lemma MajorityWithin(n: Node)
    requires forall f :: f in n.matchIndex ==> n.matchIndex[f] <= n.LastIndex()
    ensures CommitIndex.Majority(n.matchIndex, n.LastIndex()) <= n.LastIndex()
  {
    var v := CommitIndex.Majority(n.matchIndex, n.LastIndex());
    assert CommitIndex.Qualifies(n.matchIndex, n.LastIndex(), v);
    var reaching := CommitIndex.Reaching(n.matchIndex, n.matchIndex.Keys, v);
    if reaching != {} {
      var f := Pick(reaching);
      assert v <= n.matchIndex[f];
    }
  }

  /** A leader that advances its commit index reaches the greatest index that may be committed. */
  lemma AdvanceIsGreatest(n: Node, index: int)
    requires TracksConfig(n) && n.role == Leader && 1 <= index <= n.LastIndex()
    requires forall f :: f in n.matchIndex ==> n.matchIndex[f] <= n.LastIndex()
    ensures CanCommit(n, index, n.currentTerm) ==> index <= AdvanceCommit(n).commitIdx
    ensures AdvanceCommit(n).commitIdx > n.commitIdx ==> CanCommit(n, AdvanceCommit(n).commitIdx, n.currentTerm)
  {
    var majority := CommitIndex.Majority(n.matchIndex, n.LastIndex());
    MedianMeetsCounting(n, index);
    MajorityWithin(n);
    if 1 <= majority { MedianMeetsCounting(n, majority); }
  }

  // ----- a leader that tracks itself as well -----

  /** As after applying a finalised change: the node is among those it tracks, and never hears from itself. */
  predicate TracksItself(n: Node) {
    && !n.config.inTransition
    && n.id in n.config.oldConfig.nodes
    && n.matchIndex.Keys == n.config.oldConfig.nodes
  }

  /** Applying a finalised change makes the node track itself, from zero if it did not do so before. */
  lemma RetrackTracksItself(n: Node)
    requires ConfigOk(n) && !n.config.inTransition
    ensures TracksItself(HandleConfigChange(n, FinalizeConfig))
    ensures n.id !in n.matchIndex ==> HandleConfigChange(n, FinalizeConfig).matchIndex[n.id] == 0
  {
  }

  /** One if the leader's tracked index for itself has reached the entry, else zero. */
  function OwnMatch(n: Node, index: int): nat {
    if Lookup(n.matchIndex, n.id) >= index then 1 else 0
  }

  /** The median is then one of the nodes and the leader's last index once more. */
  lemma MedianOfSelfTracking(n: Node, index: int)
    requires TracksItself(n) && index <= n.LastIndex()
    ensures var nodes := n.config.oldConfig.nodes;
      index <= CommitIndex.Majority(n.matchIndex, n.LastIndex())
      <==> 1 + OwnMatch(n, index) + |Holders(n, nodes, index)| >= (|nodes| + 1) / 2 + 1
  {
    var nodes := n.config.oldConfig.nodes;
    var holders := Holders(n, nodes, index);
    CommitIndex.MajorityBounds(n.matchIndex, n.LastIndex(), index);
    assert |n.matchIndex| == |n.matchIndex.Keys| == |nodes|;
    var reaching := CommitIndex.Reaching(n.matchIndex, n.matchIndex.Keys, index);
    assert reaching == if OwnMatch(n, index) == 1 then holders + {n.id} else holders;
  }

  /**
   So median and counting agree on an index exactly as follows: where the leader's own tracked index falls short, as
   it does while it stays at zero, unless the nodes are an odd number of which a bare majority holds the entry; and
   where it does not, unless they are an even number of which exactly half do.
  */
  lemma SelfTrackingAgrees(n: Node, index: int)
    requires TracksItself(n) && index <= n.LastIndex()
    ensures var nodes := n.config.oldConfig.nodes;
      var held := 1 + |Holders(n, nodes, index)|;
      (index <= CommitIndex.Majority(n.matchIndex, n.LastIndex()) <==> CanCommit(n, index, n.currentTerm))
      <==> if OwnMatch(n, index) == 0 then |nodes| % 2 == 0 || held != |nodes| / 2 + 1
           else |nodes| % 2 == 1 || held != |nodes| / 2
  {
    MedianOfSelfTracking(n, index);
  }

  /** A bare majority of an odd number of nodes does not let such a leader advance, though counting would. */
  lemma SelfTrackingHidesMajority(n: Node, index: int)
    requires TracksItself(n) && n.role == Leader && n.commitIdx < index <= n.LastIndex() && OwnMatch(n, index) == 0
    requires var nodes := n.config.oldConfig.nodes;
      |nodes| % 2 == 1 && 1 + |Holders(n, nodes, index)| == |nodes| / 2 + 1
    ensures CanCommit(n, index, n.currentTerm) && AdvanceCommit(n).commitIdx < index
  {
    SelfTrackingAgrees(n, index);
  }
}
