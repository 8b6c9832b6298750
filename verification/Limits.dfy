/**
 What the hypotheses on runs are needed for, shown by runs in any cluster that is large enough, and with the theorems on
 all runs exactly which clusters are safe without them.
*/
module Limits {
  import opened Types
  import opened Sets
  import opened StateMachine
  import opened NodeSpec
  import opened Cluster
  import opened CrashRuns
  import opened Scenarios
  import opened Theorems
  import Application
  import Commands
  import Voting

  // ----- equally many applied entries, different stores -----

  /** The node has applied the first `k` entries of its log, all of which is committed, and has saved everything. */
  ghost predicate HasApplied(w: World, i: int, n: Node, log: seq<Entry>, k: nat)
    requires k <= |log|
  {
    && Fixed(w, i, n) && n.log == log && n.commitIdx == |log| && n.lastApplied == k && Durable(n)
    && n.store == Fold(log[..k], map[]) && n.disk.store == n.store
  }

  /** Node `i` has applied the first `k` entries of its log, and the others nothing. */
  ghost predicate Applying(w: World, s: System, i: int, log: seq<Entry>, k: nat) {
    && s.nodes.Keys == w.ids && i in w.ids && k <= |log|
    && HasApplied(w, i, s.nodes[i], log, k)
    && forall j :: j in w.ids - {i} ==> Untouched(s.nodes[j])
  }

  lemma AppliesNext(w: World, s: System, i: int, log: seq<Entry>, k: nat)
    requires Applying(w, s, i, log, k) && k < |log| && Plain(log[k])
    ensures Enabled(w, s, Apply(i)) && Applying(w, Do(w, s, Apply(i)), i, log, k + 1)
  {
    Application.ApplyExecutes(s.nodes[i]);
    FoldNext(log, k, map[]);
  }

  lemma {:induction false} AppliesRest(w: World, states: seq<System>, events: seq<Event>, s: System,
        i: int, log: seq<Entry>, k: nat)
      returns (states': seq<System>, events': seq<Event>, s': System)
    requires Reaches(w, states, events, s) && Applying(w, s, i, log, k)
    requires forall p :: 0 <= p < |log| ==> Plain(log[p])
    ensures Reaches(w, states', events', s') && Applying(w, s', i, log, |log|)
    decreases |log| - k
  {
    if k == |log| {
      states', events', s' := states, events, s;
    } else {
      AppliesNext(w, s, i, log, k);
      states', events', s' := Extended(w, states, events, s, Apply(i));
      states', events', s' := AppliesRest(w, states', events', s', i, log, k + 1);
    }
  }

  /** A node that has applied all of its log, the last entry of which sets the key, and restarts. */
  lemma RestartsAhead(w: World, s: System, i: int, log: seq<Entry>, value: string)
    requires Applying(w, s, i, log, |log|) && log != [] && log[|log| - 1] == Proposal(w, value)
    ensures Enabled(w, s, Restart(i))
    ensures var s' := Do(w, s, Restart(i));
      && s'.nodes.Keys == w.ids && s'.nodes[i].lastApplied == 0 && "k" in s'.nodes[i].store
      && forall j :: j in w.ids - {i} ==> Untouched(s'.nodes[j])
  {
    assert log[..|log|] == log;
  }

  lemma AppliesAll(w: World, i: int) returns (states: seq<System>, events: seq<Event>, s: System)
    requires WellFormed(w) && i in w.ids && w.ids - {i} != {}
    ensures var log := w.prefix + [Proposal(w, "x")]; Reaches(w, states, events, s) && Applying(w, s, i, log, |log|)
  {
    var states1, events1, s1 := CommandsGetCommitted(w, i);
    assert (w.prefix + [Proposal(w, "x")])[..0] == [];
    states, events, s := AppliesRest(w, states1, events1, s1, i, w.prefix + [Proposal(w, "x")], 0);
  }

  lemma RestartsAfterAll(w: World, states: seq<System>, events: seq<Event>, s: System, i: int, log: seq<Entry>)
      returns (states': seq<System>, events': seq<Event>, s': System)
    requires Reaches(w, states, events, s) && Applying(w, s, i, log, |log|)
    requires log != [] && log[|log| - 1] == Proposal(w, "x")
    ensures Reaches(w, states', events', s') && s'.nodes.Keys == w.ids
    ensures s'.nodes[i].lastApplied == 0 && "k" in s'.nodes[i].store
    ensures forall j :: j in w.ids - {i} ==> Untouched(s'.nodes[j])
  {
    RestartsAhead(w, s, i, log, "x");
    states', events', s' := Extended(w, states, events, s, Restart(i));
  }

  /**
   In any cluster of two nodes or more, from any first log, there is a run after which two nodes have applied equally
   many entries, namely none, and yet hold different stores: one has applied everything and has then restarted.
  */
  lemma RestartsPartStores(w: World, i: int, j: int) returns (states: seq<System>, events: seq<Event>, s: System)
    requires WellFormed(w) && i in w.ids && j in w.ids && i != j
    ensures Reaches(w, states, events, s) && s.nodes.Keys == w.ids
    ensures s.nodes[i].lastApplied == s.nodes[j].lastApplied == 0 && s.nodes[i].store != s.nodes[j].store
  {
    var log := w.prefix + [Proposal(w, "x")];
    assert j in w.ids - {i};
    var states1, events1, s1 := AppliesAll(w, i);
    states, events, s := RestartsAfterAll(w, states1, events1, s1, i, log);
  }

  // ----- an empty first log -----

  lemma ShippedOnceMore(w: World, states: seq<System>, events: seq<Event>, s: System, i: int, j: int)
      returns (states': seq<System>, events': seq<Event>, s': System)
    requires Reaches(w, states, events, s) && j in w.ids - {i}
    requires Led(w, s, i, [Proposal(w, "x")], 0, {}) && s.nodes[i].commitIdx == 0 && Durable(s.nodes[i])
    ensures Reaches(w, states', events', s')
    ensures Led(w, s', i, [Proposal(w, "x")], 0, {}) && s'.nodes[i].commitIdx == 0 && Durable(s'.nodes[i])
    ensures s'.nodes[j].log == s.nodes[j].log + [Proposal(w, "x")]
  {
    ShipsUnheard(w, s, i, [Proposal(w, "x")], {}, j);
    states', events', s' := Extended(w, states, events, s, Exchange(i, j, false));
  }

  lemma ShippedOnce(w: World, i: int, j: int) returns (states: seq<System>, events: seq<Event>, s: System)
    requires w.prefix == [] && i in w.ids && j in w.ids - {i}
    ensures Reaches(w, states, events, s) && Led(w, s, i, [Proposal(w, "x")], 0, {})
    ensures s.nodes[i].commitIdx == 0 && Durable(s.nodes[i]) && s.nodes[j].log == [Proposal(w, "x")]
  {
    var states1, events1, s1 := LeaderProposes(w, i);
    assert w.prefix + [Proposal(w, "x")] == [Proposal(w, "x")];
    states, events, s := ShippedOnceMore(w, states1, events1, s1, i, j);
  }

  /** The leader has shipped its first entry twice to `j`, unheard, which has put it into its log twice. */
  lemma ShippedTwice(w: World, i: int, j: int) returns (states: seq<System>, events: seq<Event>, s: System)
    requires w.prefix == [] && i in w.ids && j in w.ids - {i}
    ensures Reaches(w, states, events, s) && Led(w, s, i, [Proposal(w, "x")], 0, {})
    ensures s.nodes[i].commitIdx == 0 && Durable(s.nodes[i])
    ensures s.nodes[j].log == [Proposal(w, "x"), Proposal(w, "x")]
  {
    var states1, events1, s1 := ShippedOnce(w, i, j);
    states, events, s := ShippedOnceMore(w, states1, events1, s1, i, j);
  }

  lemma ProposesAgain(w: World, states: seq<System>, events: seq<Event>, s: System, i: int)
      returns (states': seq<System>, events': seq<Event>, s': System)
    requires Reaches(w, states, events, s) && Led(w, s, i, [Proposal(w, "x")], 0, {}) && s.nodes[i].commitIdx == 0
    requires w.ids - {i} != {}
    ensures Reaches(w, states', events', s') && Led(w, s', i, [Proposal(w, "x"), Proposal(w, "y")], 0, {})
    ensures Durable(s'.nodes[i]) && forall j :: j in w.ids - {i} ==> s'.nodes[j] == s.nodes[j]
  {
    Submits(w, s, i, [Proposal(w, "x")], 0, "y");
    states', events', s' := Extended(w, states, events, s, Submit(i, Commands.SetCommand("k", "y")));
    assert [Proposal(w, "x")] + [Proposal(w, "y")] == [Proposal(w, "x"), Proposal(w, "y")];
  }

  lemma ProposedTwice(w: World, i: int, j: int) returns (states: seq<System>, events: seq<Event>, s: System)
    requires w.prefix == [] && i in w.ids && j in w.ids - {i}
    ensures Reaches(w, states, events, s) && Led(w, s, i, [Proposal(w, "x"), Proposal(w, "y")], 0, {})
    ensures Durable(s.nodes[i]) && s.nodes[j].log == [Proposal(w, "x"), Proposal(w, "x")]
  {
    var states1, events1, s1 := ShippedTwice(w, i, j);
    states, events, s := ProposesAgain(w, states1, events1, s1, i);
  }

  /** It proposes again, ships the whole of its log to everybody, and commits it. */
  lemma CommittedApart(w: World, i: int, j: int) returns (states: seq<System>, events: seq<Event>, s: System)
    requires w.prefix == [] && i in w.ids && j in w.ids - {i}
    ensures Reaches(w, states, events, s)
    ensures Led(w, s, i, [Proposal(w, "x"), Proposal(w, "y")], 0, w.ids - {i})
    ensures s.nodes[j].log == [Proposal(w, "x"), Proposal(w, "x"), Proposal(w, "x"), Proposal(w, "y")]
  {
    var x, y := Proposal(w, "x"), Proposal(w, "y");
    var states1, events1, s1 := ProposedTwice(w, i, j);
    states, events, s := ShipsToAll(w, states1, events1, s1, i, [x, y], 0, {});
    assert Taken([x, x], [x, y], 0) == [x, x, x, y];
  }

  /** A heartbeat with nothing to ship tells a follower with the right term at the end what is committed. */
  lemma HearsOfCommit(w: World, s: System, i: int, j: int, log: seq<Entry>, k: nat)
    requires Led(w, s, i, log, k, w.ids - {i}) && j in w.ids - {i} && log != []
    requires |log| <= |s.nodes[j].log| && s.nodes[j].log[|log| - 1].term == log[|log| - 1].term
    ensures Enabled(w, s, Exchange(i, j, false))
    ensures var s' := Do(w, s, Exchange(i, j, false));
      && s'.nodes.Keys == w.ids && s'.nodes[i] == s.nodes[i]
      && s'.nodes[j].log == s.nodes[j].log && s'.nodes[j].commitIdx >= |log|
  {
    var m := AppendArgs(w.term + 1, i, |log|, log[|log| - 1].term, |log|, []);
    assert Outbound(s.nodes[i], j) == SendAppend(m);
    assert PrevMatches(ObserveLeader(s.nodes[j], m.term, i), m);
  }

  /**
   In any cluster of two nodes or more that start from an empty log, there is a run after which two nodes have
   committed different commands at index 2: the follower has taken the first command twice, behind index zero, where
   nothing is checked and nothing truncated.
  */
  lemma EmptyFirstLogIsUnsafe(w: World, i: int, j: int) returns (states: seq<System>, events: seq<Event>, s: System)
    requires w.prefix == [] && i in w.ids && j in w.ids - {i}
    ensures Reaches(w, states, events, s) && s.nodes.Keys == w.ids
    ensures s.nodes[i].commitIdx >= 2 && s.nodes[j].commitIdx >= 2
    ensures s.nodes[i].log == [Proposal(w, "x"), Proposal(w, "y")]
    ensures s.nodes[j].log == [Proposal(w, "x"), Proposal(w, "x"), Proposal(w, "x"), Proposal(w, "y")]
  {
    states, events, s := CommittedApart(w, i, j);
    HearsOfCommit(w, s, i, j, [Proposal(w, "x"), Proposal(w, "y")], 0);
    states, events, s := Extended(w, states, events, s, Exchange(i, j, false));
  }

  // ----- a node on its own -----

  /** A cluster of at most one node has committed nothing, and has applied nothing. */
  ghost predicate Alone(w: World, s: System) {
    && s.nodes.Keys == w.ids
    && (forall i :: i in w.ids ==>
          var n := s.nodes[i];
          && n.id == i && n.peers == w.ids - {i} && n.commitIdx == 0 && Untouched(n)
          && n.disk.snapshot == None)
    && forall m :: m in s.announcements ==> m.leaderId in w.ids
  }

  lemma OnlyOne(ids: set<int>, a: int, b: int)
    requires |ids| <= 1 && a in ids && b in ids
    ensures a == b
  {
    if a != b {
      SubsetSize({a, b}, ids);
      assert false;
    }
  }

  /** The two differ in none of the things of which a node on its own has nothing. */
  predicate AlikeAlone(n: Node, n': Node) {
    && n'.id == n.id && n'.peers == n.peers && n'.commitIdx == n.commitIdx && n'.lastApplied == n.lastApplied
    && n'.store == n.store && n'.disk.store == n.disk.store && n'.disk.snapshot == n.disk.snapshot
  }

  lemma VoteLeavesAlone(n: Node, m: VoteRequest)
    ensures AlikeAlone(n, RequestVote(n, m).0)
  {
  }

  lemma PutAlone(w: World, s: System, i: int, n: Node)
    requires Alone(w, s) && i in w.ids && AlikeAlone(s.nodes[i], n)
    ensures Alone(w, Put(s, i, n))
  {
  }

  lemma RestartAlone(w: World, s: System, i: int)
    requires Alone(w, s) && i in w.ids
    ensures AlikeAlone(s.nodes[i], Recover(i, w.ids - {i}, s.nodes[i].disk))
  {
  }

  /** No exchange and no announcement reaches it, so nothing is ever committed. */
  lemma AloneStep(w: World, s: System, e: Event)
    requires |w.ids| <= 1 && Alone(w, s) && Enabled(w, s, e)
    ensures Alone(w, Do(w, s, e))
  {
    match e
    case Timeout(i) => PutAlone(w, s, i, StartElection(s.nodes[i]));
    case AskVotes(i) =>
    case CastVote(j, m) =>
      VoteLeavesAlone(s.nodes[j], m);
      PutAlone(w, s, j, RequestVote(s.nodes[j], m).0);
    case Win(i, _) => PutAlone(w, s, i, BecomeLeader(s.nodes[i]));
    case Lose(i) => PutAlone(w, s, i, s.nodes[i].(role := Follower));
    case Announced(j, m) => OnlyOne(w.ids, j, m.leaderId);
    case Exchange(i, j, _) => OnlyOne(w.ids, i, j);
    case Submit(i, command) => PutAlone(w, s, i, Propose(s.nodes[i], command).0);
    case Apply(i) => PutAlone(w, s, i, ApplyNext(s.nodes[i]));
    case Restart(i) =>
      RestartAlone(w, s, i);
      PutAlone(w, s, i, Recover(i, w.ids - {i}, s.nodes[i].disk));
  }

  lemma {:induction false} StaysAlone(w: World, states: seq<System>, events: seq<Event>, x: nat)
    requires |w.ids| <= 1 && IsRun(w, states, events) && x < |states|
    ensures Alone(w, states[x])
    decreases x
  {
    if x == 0 {
    } else {
      var k := x - 1;
      StaysAlone(w, states, events, k);
      assert Next(w, states[k], events[k], states[k + 1]);
      AloneStep(w, states[k], events[k]);
    }
  }

  lemma NothingAlone(w: World, states: seq<System>, events: seq<Event>, x: nat, a: int)
    requires |w.ids| <= 1 && IsRun(w, states, events) && HasNode(states, x, a)
    ensures states[x].nodes[a].commitIdx == 0 && states[x].nodes[a].store == map[]
  {
    StaysAlone(w, states, events, x);
  }

  // ----- exactly which clusters are safe -----

  /** State machine safety, for the logs in all runs of a cluster. */
  ghost predicate AlwaysSafe(w: World) {
    forall states: seq<System>, events: seq<Event> :: IsRun(w, states, events) ==> CommitsAgree(states)
  }

  lemma NothingCommitted(n: Node, m: Node)
    requires n.commitIdx == 0 && m.commitIdx == 0
    ensures CommittedAlike(n, m)
  {
    assert SamePrefix(n, m, 0);
  }

  lemma SafeAlone(w: World, states: seq<System>, events: seq<Event>)
    requires |w.ids| <= 1 && IsRun(w, states, events)
    ensures CommitsAgree(states)
  {
    forall x: nat, a: int, y: nat, b: int | HasNode(states, x, a) && HasNode(states, y, b)
      ensures CommittedAlike(states[x].nodes[a], states[y].nodes[b])
    {
      NothingAlone(w, states, events, x, a);
      NothingAlone(w, states, events, y, b);
      NothingCommitted(states[x].nodes[a], states[y].nodes[b]);
    }
  }

  lemma TwoMembers(ids: set<int>) returns (i: int, j: int)
    requires |ids| > 1
    ensures i in ids && j in ids && i != j
  {
    i := Pick(ids);
    assert |ids - {i}| == |ids| - 1;
    j := Pick(ids - {i});
  }

  lemma UnsafeFromNothing(w: World) returns (states: seq<System>, events: seq<Event>)
    requires w.prefix == [] && |w.ids| > 1
    ensures IsRun(w, states, events) && !CommitsAgree(states)
  {
    var i, j := TwoMembers(w.ids);
    var s;
    states, events, s := EmptyFirstLogIsUnsafe(w, i, j);
    var n, m := s.nodes[i], s.nodes[j];
    assert HasNode(states, |events|, i) && HasNode(states, |events|, j);
    assert n.log[..2][1] != m.log[..2][1];
    assert !SamePrefix(n, m, 2);
  }

  /**
   State machine safety holds in all runs of a cluster if and only if its nodes start from a non-empty log, or there is
   at most one of them.
  */
  lemma SafeExactly(w: World)
    requires WellFormed(w)
    ensures AlwaysSafe(w) <==> w.prefix != [] || |w.ids| <= 1
  {
    if w.prefix != [] {
      forall states: seq<System>, events: seq<Event> | IsRun(w, states, events) ensures CommitsAgree(states) {
        SafeFromPrefix(w, states, events);
      }
    } else if |w.ids| <= 1 {
      forall states: seq<System>, events: seq<Event> | IsRun(w, states, events) ensures CommitsAgree(states) {
        SafeAlone(w, states, events);
      }
    } else {
      var states, events := UnsafeFromNothing(w);
    }
  }

  ghost predicate StoresFollowIndices(states: seq<System>) {
    forall x: nat, a: int, y: nat, b: int :: HasNode(states, x, a) && HasNode(states, y, b) ==>
      states[x].nodes[a].lastApplied == states[y].nodes[b].lastApplied ==>
        states[x].nodes[a].store == states[y].nodes[b].store
  }

  /**
   Equally many applied entries mean equal stores, in all runs of a cluster, if and only if it has at most one node:
   otherwise a restart can part them, and the exact condition is one on the states.
  */
  lemma StoresFollowExactly(w: World)
    requires WellFormed(w)
    ensures (forall states: seq<System>, events: seq<Event> :: IsRun(w, states, events) ==> StoresFollowIndices(states))
            <==> |w.ids| <= 1
  {
    if |w.ids| <= 1 {
      forall states: seq<System>, events: seq<Event> | IsRun(w, states, events) ensures StoresFollowIndices(states) {
        forall x: nat, a: int | HasNode(states, x, a) ensures states[x].nodes[a].store == map[] {
          NothingAlone(w, states, events, x, a);
        }
      }
    } else {
      var i, j := TwoMembers(w.ids);
      var states, events, s := RestartsPartStores(w, i, j);
      assert HasNode(states, |events|, i) && HasNode(states, |events|, j);
      assert !StoresFollowIndices(states);
    }
  }

  // ----- crashes that lose a vote -----

  lemma SubsetOfSize(s: set<int>, k: nat) returns (t: set<int>)
    requires k <= |s|
    ensures t <= s && |t| == k
    decreases k
  {
    if k == 0 {
      t := {};
    } else {
      var x := Pick(s);
      t := SubsetOfSize(s - {x}, k - 1);
      t := t + {x};
    }
  }

  /** A node that has saved nothing since it booted crashes. */
  lemma Forgets(w: World, s: System, i: int)
    requires s.nodes.Keys == w.ids && i in w.ids && s.nodes[i].disk == BootDisk(w)
    ensures Fires(w, s, Restart(i))
    ensures SameOthers(s, Outcome(w, s, Restart(i)), {i}) && Idle(w, i, Outcome(w, s, Restart(i)).nodes[i])
  {
    Boots(w, i);
  }

  /** A crash run in which node `i` has just been elected, and has saved nothing of it. */
  ghost predicate Elected(w: World, states: seq<System>, events: seq<Event>, s: System, i: int) {
    && ReachesWith(w, true, states, events, s) && s.nodes.Keys == w.ids && i in w.ids
    && s.nodes[i].role == Leader && s.nodes[i].currentTerm == w.term + 1 && s.nodes[i].disk == BootDisk(w)
  }

  lemma IsElected(w: World, states: seq<System>, events: seq<Event>, s: System, i: int, electorate: set<int>)
      returns (states': seq<System>, events': seq<Event>, s': System)
    requires ReachesWith(w, true, states, events, s) && Standing(w, s, i, electorate, electorate)
    requires 1 + |electorate| > |w.ids| / 2
    ensures Elected(w, states', events', s', i) && states <= states' && SameOthers(s, s', {i})
  {
    Elects(w, s, i, electorate);
    states', events', s' := ExtendedWith(w, true, states, events, s, Win(i, electorate));
  }

  lemma Campaigns(w: World, states: seq<System>, events: seq<Event>, s: System, i: int, electorate: set<int>)
      returns (states': seq<System>, events': seq<Event>, s': System)
    requires ReachesWith(w, true, states, events, s) && s.nodes.Keys == w.ids && i in w.ids
    requires electorate <= w.ids - {i} && 1 + |electorate| > |w.ids| / 2 && Idle(w, i, s.nodes[i])
    requires forall j :: j in electorate ==> Idle(w, j, s.nodes[j])
    ensures Elected(w, states', events', s', i) && states <= states' && SameOthers(s, s', electorate + {i})
  {
    var states1, events1, s1 := Stands(w, true, states, events, s, i, electorate);
    var states2, events2, s2 := AllVote(w, true, states1, events1, s1, i, electorate, {});
    states', events', s' := IsElected(w, states2, events2, s2, i, electorate);
    forall j | j in w.ids - (electorate + {i}) ensures s'.nodes[j] == s.nodes[j] {
      assert s'.nodes[j] == s2.nodes[j] == s1.nodes[j] == s.nodes[j];
    }
  }

  lemma Crashes(w: World, states: seq<System>, events: seq<Event>, s: System, i: int)
      returns (states': seq<System>, events': seq<Event>, s': System)
    requires Elected(w, states, events, s, i)
    ensures ReachesWith(w, true, states', events', s') && states <= states'
    ensures SameOthers(s, s', {i}) && Idle(w, i, s'.nodes[i])
  {
    Forgets(w, s, i);
    states', events', s' := ExtendedByCrash(w, states, events, s, Restart(i));
  }

  /** Some half of the cluster elects node `i`, which then crashes and has forgotten everything. */
  lemma LeadsAndForgets(w: World, i: int, electorate: set<int>)
      returns (states: seq<System>, events: seq<Event>, s: System, x: nat)
    requires i in w.ids && electorate <= w.ids - {i} && 1 + |electorate| > |w.ids| / 2
    ensures ReachesWith(w, true, states, events, s) && s.nodes.Keys == w.ids
    ensures HasNode(states, x, i) && states[x].nodes[i].role == Leader && states[x].nodes[i].currentTerm == w.term + 1
    ensures forall j :: j in w.ids - electorate ==> Idle(w, j, s.nodes[j])
  {
    var s0, s1;
    states, events, s0 := Begins(w, true);
    states, events, s1 := Campaigns(w, states, events, s0, i, electorate);
    x := |events|;
    states, events, s := Crashes(w, states, events, s1, i);
    forall j | j in w.ids - electorate ensures Idle(w, j, s.nodes[j]) {
      if j != i { assert s.nodes[j] == s1.nodes[j] == s0.nodes[j]; }
    }
  }

  ghost predicate OneLeaderATerm(states: seq<System>) {
    forall x: nat, a: int, y: nat, b: int :: HasNode(states, x, a) && HasNode(states, y, b) ==>
      SameIfLeaders(states[x].nodes[a], states[y].nodes[b], a, b)
  }

  predicate SameIfLeaders(n: Node, m: Node, a: int, b: int) {
    n.role == Leader && m.role == Leader && n.currentTerm == m.currentTerm ==> a == b
  }

  /** Two nodes of an odd number, and two halves of the others, of which the second takes the first node in again. */
  lemma Halves(ids: set<int>) returns (i: int, half: set<int>, j: int, again: set<int>)
    requires |ids| % 2 == 1 && |ids| > 1
    ensures i in ids && half <= ids - {i} && |half| == |ids| / 2
    ensures j in ids && j != i && again <= ids - {j} && |again| == |ids| / 2 && j !in half && again !! half
  {
    i := Pick(ids);
    assert |ids - {i}| == |ids| - 1;
    half := SubsetOfSize(ids - {i}, |ids| / 2);
    var rest := ids - {i} - half;
    assert |rest| == |ids| / 2;
    j := Pick(rest);
    assert |rest - {j}| == |rest| - 1;
    again := rest - {j} + {i};
  }

  /** In any cluster of an odd number of nodes from three on, two nodes can lead one term. */
  lemma CrashesElectTwo(w: World) returns (states: seq<System>, events: seq<Event>)
    requires |w.ids| % 2 == 1 && |w.ids| > 1
    ensures IsCrashRun(w, states, events) && !OneLeaderATerm(states)
  {
    var i, half, j, again := Halves(w.ids);
    var s, x;
    states, events, s, x := LeadsAndForgets(w, i, half);
    var s';
    states, events, s' := Campaigns(w, states, events, s, j, again);
    assert HasNode(states, x, i) && HasNode(states, |events|, j);
    assert !SameIfLeaders(states[x].nodes[i], states[|events|].nodes[j], i, j);
  }

  lemma CrashesElectOne(w: World, states: seq<System>, events: seq<Event>)
    requires WellFormed(w) && IsCrashRun(w, states, events) && (|w.ids| <= 1 || |w.ids| % 2 == 0)
    ensures OneLeaderATerm(states)
  {
    forall x: nat, a: int, y: nat, b: int | HasNode(states, x, a) && HasNode(states, y, b)
      ensures SameIfLeaders(states[x].nodes[a], states[y].nodes[b], a, b)
    {
      var n, m := states[x].nodes[a], states[y].nodes[b];
      if |w.ids| <= 1 {
        SoundRun(w, states, events, x);
        SoundRun(w, states, events, y);
        OnlyOne(w.ids, a, b);
      } else if n.role == Leader && m.role == Leader && n.currentTerm == m.currentTerm {
        Voting.EvenClustersElectOne(w, states, events, x, a, y, b);
      }
    }
  }

  /**
   When nodes may crash with a vote unsaved, no term ever has two leaders if and only if the cluster has an even number
   of nodes, or just one: only the first winner of a term can vote a second time, and in an even cluster two majorities
   have two nodes in common.
  */
  lemma CrashesElectOneExactly(w: World)
    requires WellFormed(w)
    ensures (forall states: seq<System>, events: seq<Event> :: IsCrashRun(w, states, events) ==> OneLeaderATerm(states))
            <==> |w.ids| <= 1 || |w.ids| % 2 == 0
  {
    if |w.ids| <= 1 || |w.ids| % 2 == 0 {
      forall states: seq<System>, events: seq<Event> | IsCrashRun(w, states, events) ensures OneLeaderATerm(states) {
        CrashesElectOne(w, states, events);
      }
    } else {
      var states, events := CrashesElectTwo(w);
    }
  }

  // ----- why a CLEAN is kept out of the runs -----

  /** Applying the next entry leaves the commit index within the log exactly when the entry is no CLEAN. */
  lemma CleanStrandsCommit(n: Node)
    requires NextEntry(n).Some? && n.commitIdx <= n.LastIndex()
    ensures ApplyNext(n).commitIdx <= ApplyNext(n).LastIndex() <==> NextEntry(n).value.command != "CLEAN"
  {
    var e := NextEntry(n).value;
    if e.command == "CLEAN" {
      assert ApplyNext(n).log == [];
    } else {
      assert |ApplyNext(n).log| >= |n.log|;
    }
  }
}
