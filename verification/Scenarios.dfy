/**
 Runs spelt out, in any cluster of two nodes or more: an election, and a leader that proposes, ships and commits. They
 are built from single steps, and may go through crashes.
*/
module Scenarios {
  import opened Types
  import opened Sets
  import opened NodeSpec
  import opened Cluster
  import opened CrashRuns
  import Commands
  import CommitIndex
  import Membership

  // ----- building runs -----

  /** A run that has come to the state `s`. */
  ghost predicate Reaches(w: World, states: seq<System>, events: seq<Event>, s: System) {
    IsRun(w, states, events) && states[|events|] == s
  }

  lemma RunExtends(w: World, states: seq<System>, events: seq<Event>, e: Event, s': System)
    requires IsRun(w, states, events) && Next(w, states[|events|], e, s')
    ensures IsRun(w, states + [s'], events + [e])
  {
    var states', events' := states + [s'], events + [e];
    forall k | 0 <= k < |events'| ensures Next(w, states'[k], events'[k], states'[k + 1]) {
      if k < |events| { assert Next(w, states[k], events[k], states[k + 1]); }
    }
  }

  lemma Extended(w: World, states: seq<System>, events: seq<Event>, s: System, e: Event)
      returns (states': seq<System>, events': seq<Event>, s': System)
    requires Reaches(w, states, events, s) && Enabled(w, s, e)
    ensures s' == Do(w, s, e) && Reaches(w, states', events', s') && states' == states + [s']
  {
    s' := Do(w, s, e);
    states', events' := states + [s'], events + [e];
    RunExtends(w, states, events, e, s');
  }

  /** The same for a run in which nodes may crash, if `crashes`. */
  ghost predicate ReachesWith(w: World, crashes: bool, states: seq<System>, events: seq<Event>, s: System) {
    if crashes then IsCrashRun(w, states, events) && states[|events|] == s else Reaches(w, states, events, s)
  }

  lemma ExtendedByCrash(w: World, states: seq<System>, events: seq<Event>, s: System, e: Event)
      returns (states': seq<System>, events': seq<Event>, s': System)
    requires ReachesWith(w, true, states, events, s) && Fires(w, s, e)
    ensures s' == Outcome(w, s, e) && ReachesWith(w, true, states', events', s') && states <= states'
  {
    s' := Outcome(w, s, e);
    states', events' := states + [s'], events + [e];
    CrashRunExtends(w, states, events, e, s');
  }

  lemma ExtendedWith(w: World, crashes: bool, states: seq<System>, events: seq<Event>, s: System, e: Event)
      returns (states': seq<System>, events': seq<Event>, s': System)
    requires ReachesWith(w, crashes, states, events, s) && Enabled(w, s, e) && !e.Restart?
    ensures s' == Do(w, s, e) && ReachesWith(w, crashes, states', events', s') && states <= states'
  {
    if crashes {
      states', events', s' := ExtendedByCrash(w, states, events, s, e);
    } else {
      states', events', s' := Extended(w, states, events, s, e);
    }
  }

  // ----- the nodes of these runs -----

  /** Node `i` as it is throughout: no snapshot, the first configuration, and its peers tracked. */
  predicate Fixed(w: World, i: int, n: Node) {
    && n.id == i && n.peers == w.ids - {i}
    && n.snapshot == None && n.lastSnapshotIndex == 0 && n.lastSnapshotTerm == 0 && n.disk.snapshot == None
    && n.config == ConfigState(Config(w.ids, 0), None, false, 0, 0)
    && n.nextIndex.Keys == n.peers && n.matchIndex.Keys == n.peers
  }

  /** The node has applied nothing. */
  predicate Untouched(n: Node) {
    n.lastApplied == 0 && n.store == map[] && n.disk.store == map[]
  }

  predicate Idle(w: World, i: int, n: Node) {
    && Fixed(w, i, n) && Untouched(n) && n.role == Follower && n.currentTerm == w.term && n.votedFor == -1
    && n.log == w.prefix && n.commitIdx == 0 && n.disk == BootDisk(w)
  }

  predicate Stood(w: World, i: int, n: Node) {
    && Fixed(w, i, n) && Untouched(n) && n.role == Candidate && n.currentTerm == w.term + 1
    && n.log == w.prefix && n.commitIdx == 0 && n.disk == BootDisk(w)
  }

  /** A follower in the first term that has a leader. */
  predicate Follows(w: World, i: int, n: Node) {
    Fixed(w, i, n) && Untouched(n) && n.role == Follower && n.currentTerm == w.term + 1
  }

  /**
   The leader of that term, which has shipped its log from behind index `k` to the peers in `done`, and has committed
   nothing or all of it, and all of it once every peer has it.
  */
  predicate Leads(w: World, i: int, n: Node, log: seq<Entry>, k: nat, done: set<int>) {
    && Fixed(w, i, n) && Untouched(n) && n.role == Leader && n.currentTerm == w.term + 1 && n.log == log
    && done <= n.peers
    && (forall j :: j in n.peers ==>
          && n.nextIndex[j] == (if j in done then |log| + 1 else k + 1)
          && n.matchIndex[j] == (if j in done then |log| else 0))
    && (n.commitIdx == 0 || n.commitIdx == |log|)
    && (done == n.peers ==> n.commitIdx == |log|)
  }

  /** The follower accepts entries behind index `k` of the log. */
  predicate CanTake(follower: seq<Entry>, log: seq<Entry>, k: nat) {
    k <= |log| && (k > 0 ==> k <= |follower| && follower[k - 1].term == log[k - 1].term)
  }

  /** What it then holds: behind index zero nothing is truncated. */
  function Taken(follower: seq<Entry>, log: seq<Entry>, k: nat): seq<Entry>
    requires CanTake(follower, log, k)
  {
    (if k == 0 then follower else follower[..k]) + log[k..]
  }

  // ----- what single steps do to them -----

  lemma Boots(w: World, i: int)
    requires i in w.ids
    ensures Idle(w, i, Recover(i, w.ids - {i}, BootDisk(w)))
  {
    assert w.ids - {i} + {i} == w.ids;
  }

  function Request(w: World, i: int): VoteRequest {
    VoteRequest(w.term + 1, i, |w.prefix|, if |w.prefix| > 0 then w.prefix[|w.prefix| - 1].term else 0)
  }

  lemma StandsFor(w: World, i: int, n: Node)
    requires Idle(w, i, n)
    ensures Stood(w, i, StartElection(n)) && VoteRequestOf(StartElection(n)) == Request(w, i)
  {
  }

  lemma VotesFor(w: World, j: int, n: Node, i: int)
    requires Idle(w, j, n)
    ensures var (n', granted) := RequestVote(n, Request(w, i)); granted && Follows(w, j, n') && n'.log == w.prefix
  {
  }

  lemma WinsWith(w: World, i: int, n: Node)
    requires Stood(w, i, n) && n.peers != {}
    ensures Leads(w, i, BecomeLeader(n), w.prefix, |w.prefix|, {}) && BecomeLeader(n).commitIdx == 0
  {
  }

  function Proposal(w: World, value: string): Entry {
    Entry(w.term + 1, "SET", "k", Text(value), NoChange)
  }

  lemma SetOfK(term: nat, value: string)
    ensures Commands.EntryOf(term, Commands.SetCommand("k", value)) == Entry(term, "SET", "k", Text(value), NoChange)
  {
    Commands.SetRoundTrip(term, "k", value);
  }

  lemma Proposes(w: World, i: int, n: Node, log: seq<Entry>, k: nat, value: string)
    requires Leads(w, i, n, log, k, {}) && n.commitIdx == 0 && n.peers != {}
    ensures var n' := Propose(n, Commands.SetCommand("k", value)).0;
      Leads(w, i, n', log + [Proposal(w, value)], k, {}) && n'.commitIdx == 0 && Durable(n')
  {
    SetOfK(n.currentTerm, value);
  }

  /** The window that a leader ships to a peer that is not done yet. */
  lemma ShipsBehind(w: World, i: int, n: Node, log: seq<Entry>, k: nat, done: set<int>, j: int)
    requires Leads(w, i, n, log, k, done) && j in n.peers - done && k < |log|
    ensures Outbound(n, j) == SendAppend(AppendArgs(w.term + 1, i, k, if k > 0 then log[k - 1].term else 0,
                                                    n.commitIdx, log[k..]))
  {
  }

  lemma Takes(w: World, j: int, f: Node, m: AppendArgs, log: seq<Entry>, k: nat)
    requires Follows(w, j, f) && CanTake(f.log, log, k) && k < |log|
    requires m.term == w.term + 1 && m.prevLogIndex == k && m.entries == log[k..]
    requires m.prevLogTerm == if k > 0 then log[k - 1].term else 0
    ensures var (f', accepted) := AppendEntries(f, m);
      accepted && Follows(w, j, f') && f'.log == Taken(f.log, log, k)
  {
    var l := ObserveLeader(f, m.term, m.leaderId);
    assert k > 0 ==> PrevMatches(l, m);
    if |f.log| == k { assert f.log[..k] == f.log; }
    assert Splice(l, m).log == Taken(f.log, log, k);
  }

  /** Counting lets the leader commit its majority index. */
  lemma MajorityMayCommit(w: World, i: int, n: Node)
    requires Fixed(w, i, n) && i in w.ids && 1 <= CommitIndex.Majority(n.matchIndex, n.LastIndex()) <= n.LastIndex()
    ensures CanCommit(n, CommitIndex.Majority(n.matchIndex, n.LastIndex()), n.currentTerm)
  {
    assert Membership.TracksConfig(n);
    Membership.MedianMeetsCounting(n, CommitIndex.Majority(n.matchIndex, n.LastIndex()));
  }

  lemma Advances(w: World, i: int, n: Node, v: int)
    requires Fixed(w, i, n) && i in w.ids && n.role == Leader
    requires v == CommitIndex.Majority(n.matchIndex, n.LastIndex()) && 0 <= v <= n.LastIndex()
    ensures AdvanceCommit(n) == n.(commitIdx := if n.commitIdx < v then v else n.commitIdx)
  {
    if 1 <= v { MajorityMayCommit(w, i, n); }
  }

  lemma ValuesWithin(matchIndex: map<int, int>, allowed: set<int>)
    requires forall j :: j in matchIndex ==> matchIndex[j] in allowed
    ensures matchIndex.Values <= allowed
  {
    forall v | v in matchIndex.Values ensures v in allowed {
      var j := KeyOf(matchIndex, v);
    }
  }

  /** The majority index of followers that are all at zero or at the end. */
  lemma MajorityOfTwoValues(matchIndex: map<int, int>, len: nat)
    requires forall j :: j in matchIndex ==> matchIndex[j] in {0, len}
    ensures var v := CommitIndex.Majority(matchIndex, len);
      (v == 0 || v == len) && ((forall j :: j in matchIndex ==> matchIndex[j] == len) ==> v == len)
  {
    var v := CommitIndex.Majority(matchIndex, len);
    assert CommitIndex.Qualifies(matchIndex, len, v);
    ValuesWithin(matchIndex, {0, len});
    if forall j :: j in matchIndex ==> matchIndex[j] == len { ValuesWithin(matchIndex, {len}); }
  }

  lemma NotedMajority(w: World, i: int, n: Node, log: seq<Entry>, k: nat, done: set<int>, j: int)
    requires i in w.ids && Leads(w, i, n, log, k, done) && j in n.peers - done
    ensures var v := CommitIndex.Majority(Noted(n, j, |n.log|).matchIndex, |log|);
      (v == 0 || v == |log|) && (done + {j} == n.peers ==> v == |log|)
  {
    MajorityOfTwoValues(Noted(n, j, |n.log|).matchIndex, |log|);
  }

  lemma Settles(w: World, i: int, n: Node, log: seq<Entry>, k: nat, done: set<int>, j: int)
    requires i in w.ids && Leads(w, i, n, log, k, done) && j in n.peers - done
    ensures var n' := Settle(n, j, Reply(true, w.term + 1));
      Leads(w, i, n', log, k, done + {j}) && (Durable(n) ==> Durable(n'))
  {
    assert Settle(n, j, Reply(true, w.term + 1)) == AdvanceCommit(Noted(n, j, |n.log|));
    NotedMajority(w, i, n, log, k, done, j);
    Advances(w, i, Noted(n, j, |n.log|), CommitIndex.Majority(Noted(n, j, |n.log|).matchIndex, |log|));
  }

  // ----- the election -----

  ghost predicate AllIdle(w: World, s: System) {
    s.nodes.Keys == w.ids && forall i :: i in w.ids ==> Idle(w, i, s.nodes[i])
  }

  lemma Begins(w: World, crashes: bool) returns (states: seq<System>, events: seq<Event>, s: System)
    ensures ReachesWith(w, crashes, states, events, s) && AllIdle(w, s)
  {
    s := System(map i | i in w.ids :: Recover(i, w.ids - {i}, BootDisk(w)), {}, {}, {});
    states, events := [s], [];
    forall i | i in w.ids ensures Idle(w, i, s.nodes[i]) { Boots(w, i); }
  }

  /** Node `i` stands, its request is under way, and of the nodes in `electorate` those in `voted` have granted it. */
  ghost predicate Standing(w: World, s: System, i: int, electorate: set<int>, voted: set<int>) {
    && s.nodes.Keys == w.ids && i in w.ids && voted <= electorate <= w.ids - {i}
    && Stood(w, i, s.nodes[i]) && Request(w, i) in s.requests
    && (forall j :: j in voted ==>
          Follows(w, j, s.nodes[j]) && s.nodes[j].log == w.prefix && Grant(w.term + 1, j, i) in s.grants)
    && forall j :: j in electorate - voted ==> Idle(w, j, s.nodes[j])
  }

  ghost predicate SameOthers(s: System, s': System, changed: set<int>) {
    s'.nodes.Keys == s.nodes.Keys && forall j :: j in s.nodes.Keys - changed ==> s'.nodes[j] == s.nodes[j]
  }

  lemma Stands(w: World, crashes: bool, states: seq<System>, events: seq<Event>, s: System,
        i: int, electorate: set<int>)
      returns (states': seq<System>, events': seq<Event>, s': System)
    requires ReachesWith(w, crashes, states, events, s) && s.nodes.Keys == w.ids
    requires i in w.ids && electorate <= w.ids - {i} && Idle(w, i, s.nodes[i])
    requires forall j :: j in electorate ==> Idle(w, j, s.nodes[j])
    ensures ReachesWith(w, crashes, states', events', s') && Standing(w, s', i, electorate, {})
    ensures states <= states' && SameOthers(s, s', {i})
  {
    StandsFor(w, i, s.nodes[i]);
    states', events', s' := ExtendedWith(w, crashes, states, events, s, Timeout(i));
    states', events', s' := ExtendedWith(w, crashes, states', events', s', AskVotes(i));
  }

  lemma OneVotes(w: World, s: System, i: int, electorate: set<int>, voted: set<int>, j: int)
    requires Standing(w, s, i, electorate, voted) && j in electorate - voted
    ensures Enabled(w, s, CastVote(j, Request(w, i)))
    ensures Standing(w, Do(w, s, CastVote(j, Request(w, i))), i, electorate, voted + {j})
    ensures SameOthers(s, Do(w, s, CastVote(j, Request(w, i))), electorate)
  {
    VotesFor(w, j, s.nodes[j], i);
  }

  /** All of the electorate vote. */
  lemma {:induction false} AllVote(w: World, crashes: bool, states: seq<System>, events: seq<Event>, s: System,
        i: int, electorate: set<int>, voted: set<int>)
      returns (states': seq<System>, events': seq<Event>, s': System)
    requires ReachesWith(w, crashes, states, events, s) && Standing(w, s, i, electorate, voted)
    ensures ReachesWith(w, crashes, states', events', s') && Standing(w, s', i, electorate, electorate)
    ensures states <= states' && SameOthers(s, s', electorate)
    decreases electorate - voted
  {
    if electorate == voted {
      states', events', s' := states, events, s;
    } else {
      var j := Pick(electorate - voted);
      OneVotes(w, s, i, electorate, voted, j);
      states', events', s' := ExtendedWith(w, crashes, states, events, s, CastVote(j, Request(w, i)));
      states', events', s' := AllVote(w, crashes, states', events', s', i, electorate, voted + {j});
    }
  }

  /** A majority elects the node: a leader that has saved nothing of it. */
  lemma Elects(w: World, s: System, i: int, electorate: set<int>)
    requires Standing(w, s, i, electorate, electorate) && 1 + |electorate| > |w.ids| / 2
    ensures Enabled(w, s, Win(i, electorate))
    ensures var s' := Do(w, s, Win(i, electorate));
      && SameOthers(s, s', {i}) && s'.nodes[i].role == Leader && s'.nodes[i].currentTerm == w.term + 1
      && s'.nodes[i].disk == BootDisk(w)
  {
    assert |s.nodes[i].peers| + 1 == |w.ids|;
  }

  // ----- the leader at work -----

  /** Node `i` leads with the given log; the peers that are not in `done` can take it from behind index `k`. */
  ghost predicate Led(w: World, s: System, i: int, log: seq<Entry>, k: nat, done: set<int>) {
    && s.nodes.Keys == w.ids && i in w.ids && Leads(w, i, s.nodes[i], log, k, done)
    && forall j :: j in w.ids - {i} ==>
         Follows(w, j, s.nodes[j]) && (j !in done ==> CanTake(s.nodes[j].log, log, k))
  }

  lemma Wins(w: World, s: System, i: int)
    requires Standing(w, s, i, w.ids - {i}, w.ids - {i}) && w.ids - {i} != {}
    ensures Enabled(w, s, Win(i, w.ids - {i}))
    ensures var s' := Do(w, s, Win(i, w.ids - {i}));
      && Led(w, s', i, w.prefix, |w.prefix|, {}) && s'.nodes[i].commitIdx == 0
      && forall j :: j in w.ids - {i} ==> s'.nodes[j].log == w.prefix
  {
    WinsWith(w, i, s.nodes[i]);
  }

  lemma Submits(w: World, s: System, i: int, log: seq<Entry>, k: nat, value: string)
    requires Led(w, s, i, log, k, {}) && s.nodes[i].commitIdx == 0 && w.ids - {i} != {}
    ensures var e := Submit(i, Commands.SetCommand("k", value));
      && Enabled(w, s, e)
      && var s' := Do(w, s, e);
        && Led(w, s', i, log + [Proposal(w, value)], k, {}) && s'.nodes[i].commitIdx == 0 && Durable(s'.nodes[i])
        && forall j :: j in w.ids - {i} ==> s'.nodes[j] == s.nodes[j]
  {
    forall t: nat ensures Plain(Commands.EntryOf(t, Commands.SetCommand("k", value))) { SetOfK(t, value); }
    Proposes(w, i, s.nodes[i], log, k, value);
  }

  /** The outcome of shipping the log to a peer that can take it. */
  lemma Delivers(w: World, s: System, i: int, log: seq<Entry>, k: nat, done: set<int>, j: int)
    requires Led(w, s, i, log, k, done) && j in w.ids - {i} - done && k < |log|
    ensures var (f, reply) := Deliver(s.nodes[i], s.nodes[j]);
      Follows(w, j, f) && f.log == Taken(s.nodes[j].log, log, k) && reply == Reply(true, w.term + 1)
  {
    ShipsBehind(w, i, s.nodes[i], log, k, done, j);
    Takes(w, j, s.nodes[j], Outbound(s.nodes[i], j).args, log, k);
  }

  /** The peer takes the log, and the answer arrives. */
  lemma ShipsTo(w: World, s: System, i: int, log: seq<Entry>, k: nat, done: set<int>, j: int)
    requires Led(w, s, i, log, k, done) && j in w.ids - {i} - done && k < |log|
    ensures Enabled(w, s, Exchange(i, j, true))
    ensures var s' := Do(w, s, Exchange(i, j, true));
      && Led(w, s', i, log, k, done + {j}) && s'.nodes[j].log == Taken(s.nodes[j].log, log, k)
      && (Durable(s.nodes[i]) ==> Durable(s'.nodes[i]))
      && forall x :: x in w.ids - {i, j} ==> s'.nodes[x] == s.nodes[x]
  {
    Delivers(w, s, i, log, k, done, j);
    Settles(w, i, s.nodes[i], log, k, done, j);
  }

  /** The peer takes the log, and the answer is lost: behind index zero it can then take it again. */
  lemma ShipsUnheard(w: World, s: System, i: int, log: seq<Entry>, done: set<int>, j: int)
    requires Led(w, s, i, log, 0, done) && j in w.ids - {i} - done && 0 < |log|
    ensures Enabled(w, s, Exchange(i, j, false))
    ensures var s' := Do(w, s, Exchange(i, j, false));
      && Led(w, s', i, log, 0, done) && s'.nodes[j].log == s.nodes[j].log + log
      && s'.nodes[i] == s.nodes[i]
  {
    Delivers(w, s, i, log, 0, done, j);
    assert log[0..] == log;
  }

  /** What the peers hold when the log has been shipped to all that did not have it. */
  ghost predicate AllTaken(w: World, s: System, s': System, i: int, log: seq<Entry>, k: nat, done: set<int>)
    requires Led(w, s, i, log, k, done) && s'.nodes.Keys == w.ids
  {
    forall j :: j in w.ids - {i} - done ==> s'.nodes[j].log == Taken(s.nodes[j].log, log, k)
  }

  /** What one peer takes, and then the rest, all have taken. */
  lemma TakenInTurn(w: World, s: System, s1: System, s': System, i: int, log: seq<Entry>, k: nat,
        done: set<int>, j: int)
    requires Led(w, s, i, log, k, done) && j in w.ids - {i} - done && s'.nodes.Keys == w.ids
    requires Led(w, s1, i, log, k, done + {j}) && s1.nodes[j].log == Taken(s.nodes[j].log, log, k)
    requires forall x :: x in w.ids - {i, j} ==> s1.nodes[x] == s.nodes[x]
    requires AllTaken(w, s1, s', i, log, k, done + {j})
    requires forall x :: x in done + {j} ==> s'.nodes[x] == s1.nodes[x]
    ensures AllTaken(w, s, s', i, log, k, done) && forall x :: x in done ==> s'.nodes[x] == s.nodes[x]
  {
    forall x | x in w.ids - {i} - done ensures s'.nodes[x].log == Taken(s.nodes[x].log, log, k) {
      if x != j { assert x in w.ids - {i} - (done + {j}); }
    }
  }

  lemma {:induction false} ShipsToAll(w: World, states: seq<System>, events: seq<Event>, s: System,
        i: int, log: seq<Entry>, k: nat, done: set<int>)
      returns (states': seq<System>, events': seq<Event>, s': System)
    requires Reaches(w, states, events, s) && Led(w, s, i, log, k, done) && k < |log| && Durable(s.nodes[i])
    ensures Reaches(w, states', events', s') && Led(w, s', i, log, k, w.ids - {i}) && Durable(s'.nodes[i])
    ensures AllTaken(w, s, s', i, log, k, done)
    ensures forall j :: j in done ==> s'.nodes[j] == s.nodes[j]
    decreases w.ids - {i} - done
  {
    if w.ids - {i} == done {
      states', events', s' := states, events, s;
    } else {
      var j := Pick(w.ids - {i} - done);
      ShipsTo(w, s, i, log, k, done, j);
      var s1;
      states', events', s1 := Extended(w, states, events, s, Exchange(i, j, true));
      states', events', s' := ShipsToAll(w, states', events', s1, i, log, k, done + {j});
      TakenInTurn(w, s, s1, s', i, log, k, done, j);
    }
  }

  // ----- a leader that has proposed -----

  /** Node `i` is elected by everybody and proposes to set the key to "x". */
  lemma LeaderProposes(w: World, i: int) returns (states: seq<System>, events: seq<Event>, s: System)
    requires i in w.ids && w.ids - {i} != {}
    ensures Reaches(w, states, events, s)
    ensures Led(w, s, i, w.prefix + [Proposal(w, "x")], |w.prefix|, {})
    ensures s.nodes[i].commitIdx == 0 && Durable(s.nodes[i])
    ensures forall j :: j in w.ids - {i} ==> s.nodes[j].log == w.prefix
  {
    states, events, s := Begins(w, false);
    states, events, s := Stands(w, false, states, events, s, i, w.ids - {i});
    states, events, s := AllVote(w, false, states, events, s, i, w.ids - {i}, {});
    Wins(w, s, i);
    states, events, s := Extended(w, states, events, s, Win(i, w.ids - {i}));
    Submits(w, s, i, w.prefix, |w.prefix|, "x");
    states, events, s := Extended(w, states, events, s, Submit(i, Commands.SetCommand("k", "x")));
  }

  /**
   In any cluster of two nodes or more, from any first log and with any node as the leader, there is a run in which a
   client's command is committed, and with it the whole first log.
  */
  lemma CommandsGetCommitted(w: World, i: int) returns (states: seq<System>, events: seq<Event>, s: System)
    requires i in w.ids && w.ids - {i} != {}
    ensures Reaches(w, states, events, s) && s.nodes.Keys == w.ids
    ensures s.nodes[i].role == Leader && s.nodes[i].log == w.prefix + [Proposal(w, "x")]
    ensures s.nodes[i].commitIdx == |w.prefix| + 1
    ensures Led(w, s, i, w.prefix + [Proposal(w, "x")], |w.prefix|, w.ids - {i}) && Durable(s.nodes[i])
  {
    states, events, s := LeaderProposes(w, i);
    states, events, s := ShipsToAll(w, states, events, s, i, w.prefix + [Proposal(w, "x")], |w.prefix|, {});
  }
}
