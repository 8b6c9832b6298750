/** A whole election at one node, against the cluster's events: the timeout, and then the win or the loss. */
module Candidacy {
  import opened Types
  import opened NodeSpec
  import opened Cluster

  // ----- counting votes -----

  /** Which of the replies are grants. */
  function Granting(replies: seq<bool>): set<int> {
    set k | 0 <= k < |replies| && replies[k]
  }

  /** Counting them one by one counts them. */
  lemma {:induction false} VotesAreGrants(replies: seq<bool>)
    ensures VotesIn(replies) == |Granting(replies)|
    decreases |replies|
  {
    if replies == [] {
      assert Granting(replies) == {};
    } else {
      var last := |replies| - 1;
      VotesAreGrants(replies[..last]);
      if replies[last] {
        assert Granting(replies) == Granting(replies[..last]) + {last};
      } else {
        assert Granting(replies) == Granting(replies[..last]);
      }
    }
  }

  /** The peers that the granting replies are from; each peer replies once at most. */
  function Voters(replies: seq<bool>, from: seq<int>): set<int>
    requires |from| == |replies|
  {
    set k | 0 <= k < |replies| && replies[k] :: from[k]
  }

  predicate Distinct(from: seq<int>) {
    forall k, l :: 0 <= k < l < |from| ==> from[k] != from[l]
  }

  lemma {:induction false} VotersAreVotes(replies: seq<bool>, from: seq<int>)
    requires |from| == |replies| && Distinct(from)
    ensures |Voters(replies, from)| == VotesIn(replies)
    decreases |replies|
  {
    if replies == [] {
      assert Voters(replies, from) == {};
    } else {
      var last := |replies| - 1;
      VotersAreVotes(replies[..last], from[..last]);
      var front := Voters(replies[..last], from[..last]);
      if replies[last] {
        assert Voters(replies, from) == front + {from[last]};
        assert from[last] !in front;
      } else {
        assert Voters(replies, from) == front;
      }
    }
  }

  // ----- the election -----

  /** The node becomes the leader of the next term if and only if it and the granting peers are a majority of all. */
  lemma LeadsExactly(n: Node, replies: seq<bool>)
    requires n.role != Leader
    ensures var n' := ElectionOutcome(n, replies);
      && n'.currentTerm == n.currentTerm + 1 && n'.votedFor == n.id
      && (n'.role == Leader <==> 2 * (1 + |Granting(replies)|) > |n.peers| + 1)
      && (n'.role != Leader ==> n'.role == Follower)
  {
    VotesAreGrants(replies);
  }

  /** The replies are those of peers whose grants are under way, and all others have refused or not answered in time. */
  ghost predicate Answered(s: System, i: int, replies: seq<bool>, from: seq<int>) {
    && i in s.nodes && |from| == |replies| && Distinct(from)
    && (forall k :: 0 <= k < |from| ==> from[k] in s.nodes[i].peers)
    && forall v :: v in Voters(replies, from) ==> Grant(s.nodes[i].currentTerm, v, i) in s.grants
  }

  /**
   A whole election is the cluster's timeout and then, in a later state in which the replies have come in, its win with
   the granting peers if they and the node are a majority, and otherwise its loss.
  */
  lemma ElectionIsEvents(w: World, s: System, i: int, s': System, replies: seq<bool>, from: seq<int>)
    requires Enabled(w, s, Timeout(i)) && s'.nodes.Keys == w.ids
    requires s'.nodes[i] == Do(w, s, Timeout(i)).nodes[i] && s'.nodes[i].id == i && Answered(s', i, replies, from)
    ensures var voters := Voters(replies, from);
      if 2 * (1 + |voters|) > |s.nodes[i].peers| + 1 then
        && Enabled(w, s', Win(i, voters))
        && Do(w, s', Win(i, voters)).nodes[i] == ElectionOutcome(s.nodes[i], replies)
      else
        && Enabled(w, s', Lose(i))
        && Do(w, s', Lose(i)).nodes[i] == ElectionOutcome(s.nodes[i], replies)
  {
    VotersAreVotes(replies, from);
  }

  /** Without a majority the cluster offers no win with these voters either. */
  lemma NoWinWithout(w: World, s: System, i: int, replies: seq<bool>, from: seq<int>)
    requires s.nodes.Keys == w.ids && Answered(s, i, replies, from)
    requires 2 * (1 + |Voters(replies, from)|) <= |s.nodes[i].peers| + 1
    ensures !Enabled(w, s, Win(i, Voters(replies, from)))
  {
  }
}
