/**
 Clusters whose nodes start from an empty log. A run of such a cluster in which no follower takes entries unchecked is
 the run of a cluster that starts from one entry more: everything stands one index further on. So what holds of runs
 from a non-empty log holds of it.
*/
module FreshClusters {
  import opened Types
  import opened Sets
  import opened NodeSpec
  import opened Cluster
  import opened Theorems
  import CommitIndex
  import Membership
  import opened Runs
  import CrashRuns
  import Scenarios

  /** The entry that the image of a run starts from. */
  const FIRST := Entry(0, "", "", Nil, NoChange)

  function Image(w: World): World {
    World(w.ids, w.term, [FIRST])
  }

  // ----- the relation -----

  /** An index one further on; zero, which says nothing, may stay. */
  predicate Further(i: int, i1: int) {
    0 <= i && (i1 == i + 1 || (i == 0 && i1 == 0))
  }

  predicate SavedFurther(n: Node, m: Node) {
    && n.disk.state.Some? && m.disk.state.Some?
    && m.disk.state.value == n.disk.state.value.(log := [FIRST] + n.disk.state.value.log)
  }

  /** What a leader knows of its peers. */
  predicate TracksFurther(n: Node, m: Node)
    requires n.peers <= n.nextIndex.Keys && n.peers <= n.matchIndex.Keys
    requires n.peers <= m.nextIndex.Keys && n.peers <= m.matchIndex.Keys
  {
    forall j :: j in n.peers ==>
      && 1 <= n.nextIndex[j] <= |n.log| + 1 && m.nextIndex[j] == n.nextIndex[j] + 1
      && 0 <= n.matchIndex[j] <= |n.log| && Further(n.matchIndex[j], m.matchIndex[j])
  }

  /** A node without snapshots in its first configuration, that tracks its peers. */
  predicate Settled(w: World, i: int, n: Node) {
    && n.id == i && i in w.ids && n.peers == w.ids - {i}
    && n.snapshot == None && n.lastSnapshotIndex == 0 && n.lastSnapshotTerm == 0 && n.disk.snapshot == None
    && n.config == ConfigState(Config(w.ids, 0), None, false, 0, 0)
    && n.nextIndex.Keys == n.peers && n.matchIndex.Keys == n.peers
  }

  /** The node `m` is `n` with one entry in front of its log. What they have applied is not compared. */
  predicate Shifts(w: World, i: int, n: Node, m: Node) {
    && Settled(w, i, n) && Settled(w, i, m)
    && m.currentTerm == n.currentTerm && m.votedFor == n.votedFor && m.role == n.role && m.leaderId == n.leaderId
    && m.log == [FIRST] + n.log && SavedFurther(n, m) && Further(n.commitIdx, m.commitIdx)
    && (n.role == Leader ==> TracksFurther(n, m))
  }

  function ShiftedRequest(m: VoteRequest): VoteRequest {
    m.(lastLogIndex := m.lastLogIndex + 1)
  }

  predicate ShiftsAppend(m: AppendArgs, m1: AppendArgs) {
    && 0 <= m.prevLogIndex && (m.prevLogIndex == 0 ==> m.prevLogTerm == FIRST.term)
    && Further(m.leaderCommit, m1.leaderCommit)
    && m1 == m.(prevLogIndex := m.prevLogIndex + 1, leaderCommit := m1.leaderCommit)
  }

  ghost predicate Announces(s1: System, m: AppendArgs) {
    exists m1 :: m1 in s1.announcements && ShiftsAppend(m, m1)
  }

  ghost predicate Mirrors(w: World, s: System, s1: System) {
    && s.nodes.Keys == w.ids && s1.nodes.Keys == w.ids
    && (forall i :: i in w.ids ==> Shifts(w, i, s.nodes[i], s1.nodes[i]))
    && (forall m :: m in s.requests ==> ShiftedRequest(m) in s1.requests)
    && s1.grants == s.grants
    && (forall m :: m in s.announcements ==> Announces(s1, m) && m.entries == [])
  }

  // ----- handlers -----

  lemma BootsShifted(w: World, i: int)
    requires i in w.ids && w.prefix == []
    ensures Shifts(w, i, Recover(i, w.ids - {i}, BootDisk(w)), Recover(i, w.ids - {i}, BootDisk(Image(w))))
  {
    assert w.ids - {i} + {i} == w.ids;
    assert [FIRST] + [] == [FIRST];
  }

  lemma ShiftedEnds(w: World, i: int, n: Node, m: Node)
    requires Shifts(w, i, n, m)
    ensures m.LastIndex() == n.LastIndex() + 1 && m.LastTerm() == n.LastTerm()
    ensures forall p :: 0 <= p < |n.log| ==> m.log[p + 1] == n.log[p]
  {
  }

  lemma StandsShifted(w: World, i: int, n: Node, m: Node)
    requires Shifts(w, i, n, m)
    ensures Shifts(w, i, StartElection(n), StartElection(m))
    ensures VoteRequestOf(m) == ShiftedRequest(VoteRequestOf(n))
  {
    ShiftedEnds(w, i, n, m);
  }

  lemma VotesShifted(w: World, i: int, n: Node, m: Node, r: VoteRequest)
    requires Shifts(w, i, n, m)
    ensures RequestVote(m, ShiftedRequest(r)).1 == RequestVote(n, r).1
    ensures Shifts(w, i, RequestVote(n, r).0, RequestVote(m, ShiftedRequest(r)).0)
  {
    var n1, m1 := ObserveCandidate(n, r.term), ObserveCandidate(m, r.term);
    assert Shifts(w, i, n1, m1);
    ShiftedEnds(w, i, n1, m1);
    assert Grants(m1, ShiftedRequest(r)) == Grants(n1, r);
  }

  lemma LeadsShifted(w: World, i: int, n: Node, m: Node)
    requires Shifts(w, i, n, m)
    ensures Shifts(w, i, BecomeLeader(n), BecomeLeader(m))
  {
    ShiftedEnds(w, i, n, m);
  }

  lemma ProposesShifted(w: World, i: int, n: Node, m: Node, command: string)
    requires Shifts(w, i, n, m)
    ensures Shifts(w, i, Propose(n, command).0, Propose(m, command).0)
  {
    if n.role == Leader {
      var e := Propose(n, command).0.log[|n.log|];
      assert [FIRST] + n.log + [e] == [FIRST] + (n.log + [e]);
    }
  }

  lemma RestartsShifted(w: World, i: int, n: Node, m: Node)
    requires Shifts(w, i, n, m) && Durable(n)
    ensures Durable(m)
    ensures Shifts(w, i, Recover(i, w.ids - {i}, n.disk), Recover(i, w.ids - {i}, m.disk))
  {
    assert w.ids - {i} + {i} == w.ids;
  }

  // ----- appends -----

  /** The append would be put behind entries that it says nothing about. */
  predicate Unchecked(f: Node, m: AppendArgs) {
    m.entries != [] && m.prevLogIndex <= 0 && f.log != [] && m.term >= f.currentTerm
  }

  lemma ObservesShifted(w: World, j: int, f: Node, f1: Node, term: nat, leader: int)
    requires Shifts(w, j, f, f1)
    ensures Shifts(w, j, ObserveLeader(f, term, leader), ObserveLeader(f1, term, leader))
  {
  }

  lemma ChecksFirst(w: World, j: int, f: Node, f1: Node, m: AppendArgs, m1: AppendArgs)
    requires Shifts(w, j, f, f1) && ShiftsAppend(m, m1) && m.prevLogIndex == 0
    ensures PrevMatches(f1, m1)
  {
  }

  lemma ChecksShifted(w: World, j: int, f: Node, f1: Node, m: AppendArgs, m1: AppendArgs)
    requires Shifts(w, j, f, f1) && ShiftsAppend(m, m1) && m.prevLogIndex > 0
    ensures PrevMatches(f1, m1) == PrevMatches(f, m)
  {
    if m.prevLogIndex <= |f.log| { assert f1.log[m.prevLogIndex] == f.log[m.prevLogIndex - 1]; }
  }

  lemma SplicesShifted(w: World, j: int, f: Node, f1: Node, m: AppendArgs, m1: AppendArgs)
    requires Shifts(w, j, f, f1) && f.role == Follower && ShiftsAppend(m, m1) && m.prevLogIndex <= |f.log|
    requires m.entries != [] && m.prevLogIndex == 0 ==> f.log == []
    ensures Shifts(w, j, Splice(f, m), Splice(f1, m1))
  {
    if m.entries != [] {
      var p := m.prevLogIndex;
      assert f1.log[..p + 1] == [FIRST] + f.log[..p];
      if p == |f.log| { assert f.log[..p] == f.log && f1.log[..p + 1] == f1.log; }
      assert [FIRST] + f.log[..p] + m.entries == [FIRST] + (f.log[..p] + m.entries);
    }
  }

  lemma CommitsShifted(w: World, j: int, f: Node, f1: Node, c: int, c1: int)
    requires Shifts(w, j, f, f1) && Further(c, c1)
    ensures Shifts(w, j, FollowCommit(f, c), FollowCommit(f1, c1))
  {
  }

  lemma AppendsShifted(w: World, j: int, f: Node, f1: Node, m: AppendArgs, m1: AppendArgs)
    requires Shifts(w, j, f, f1) && ShiftsAppend(m, m1) && !Unchecked(f, m)
    ensures AppendEntries(f1, m1).1 == AppendEntries(f, m).1
    ensures Shifts(w, j, AppendEntries(f, m).0, AppendEntries(f1, m1).0)
  {
    if m.term >= f.currentTerm {
      var l, l1 := ObserveLeader(f, m.term, m.leaderId), ObserveLeader(f1, m.term, m.leaderId);
      ObservesShifted(w, j, f, f1, m.term, m.leaderId);
      if m.prevLogIndex > 0 { ChecksShifted(w, j, l, l1, m, m1); } else { ChecksFirst(w, j, l, l1, m, m1); }
      if m.prevLogIndex <= 0 || PrevMatches(l, m) {
        SplicesShifted(w, j, l, l1, m, m1);
        CommitsShifted(w, j, Splice(l, m), Splice(l1, m1), m.leaderCommit, m1.leaderCommit);
      }
    }
  }

  // ----- leaders -----

  lemma WindowShifted(w: World, i: int, n: Node, m: Node, next: int)
    requires Shifts(w, i, n, m) && 1 <= next <= |n.log| + 1
    ensures ShiftsAppend(WindowFrom(n, next), WindowFrom(m, next + 1))
  {
    ShiftedEnds(w, i, n, m);
    if next <= |n.log| { assert n.log[next - 1..] == m.log[next..]; }
  }

  lemma ShipsShifted(w: World, i: int, n: Node, m: Node, j: int)
    requires Shifts(w, i, n, m) && n.role == Leader && j in n.peers
    ensures Outbound(n, j).SendAppend? && Outbound(m, j).SendAppend?
    ensures ShiftsAppend(Outbound(n, j).args, Outbound(m, j).args)
  {
    WindowShifted(w, i, n, m, n.nextIndex[j]);
  }

  lemma ReachingFurther(w: World, i: int, n: Node, m: Node, index: int)
    requires Shifts(w, i, n, m) && n.role == Leader && 1 <= index
    ensures CommitIndex.Reaching(n.matchIndex, n.matchIndex.Keys, index)
         == CommitIndex.Reaching(m.matchIndex, m.matchIndex.Keys, index + 1)
  {
    forall j | j in n.peers ensures n.matchIndex[j] >= index <==> m.matchIndex[j] >= index + 1 {
      assert Further(n.matchIndex[j], m.matchIndex[j]);
    }
  }

  lemma ReachedFurther(w: World, i: int, n: Node, m: Node, index: int)
    requires Shifts(w, i, n, m) && n.role == Leader && 1 <= index <= |n.log|
    ensures index <= CommitIndex.Majority(n.matchIndex, |n.log|)
            <==> index + 1 <= CommitIndex.Majority(m.matchIndex, |m.log|)
  {
    CommitIndex.MajorityBounds(n.matchIndex, |n.log|, index);
    CommitIndex.MajorityBounds(m.matchIndex, |m.log|, index + 1);
    ReachingFurther(w, i, n, m, index);
    assert |n.matchIndex| == |n.matchIndex.Keys| == |m.matchIndex.Keys| == |m.matchIndex|;
  }

  /** A node's majority index lies within its log when what it knows of its peers does. */
  lemma MajorityInLog(w: World, i: int, n: Node)
    requires Settled(w, i, n) && forall j :: j in n.peers ==> 0 <= n.matchIndex[j] <= |n.log|
    ensures 0 <= CommitIndex.Majority(n.matchIndex, |n.log|) <= |n.log|
  {
    var v := CommitIndex.Majority(n.matchIndex, |n.log|);
    assert CommitIndex.Qualifies(n.matchIndex, |n.log|, v);
    if v in n.matchIndex.Values { var j := KeyOf(n.matchIndex, v); }
  }

  /** The majority index stands one further on as well, or both leaders know of nothing. */
  lemma MajorityFurther(w: World, i: int, n: Node, m: Node)
    requires Shifts(w, i, n, m) && n.role == Leader
    ensures var v, v1 := CommitIndex.Majority(n.matchIndex, |n.log|), CommitIndex.Majority(m.matchIndex, |m.log|);
      0 <= v <= |n.log| && v1 <= |m.log| && (Further(v, v1) || (v == 0 && v1 == 1))
  {
    var v, v1 := CommitIndex.Majority(n.matchIndex, |n.log|), CommitIndex.Majority(m.matchIndex, |m.log|);
    MajorityInLog(w, i, n);
    MajorityInLog(w, i, m);
    if v >= 1 { ReachedFurther(w, i, n, m, v); }
    if 1 <= v1 - 1 <= |n.log| { ReachedFurther(w, i, n, m, v1 - 1); }
  }

  lemma MajorityMayCommit(w: World, i: int, n: Node, v: int)
    requires Settled(w, i, n) && v == CommitIndex.Majority(n.matchIndex, n.LastIndex()) && 1 <= v <= n.LastIndex()
    ensures CanCommit(n, v, n.currentTerm)
  {
    assert Membership.TracksConfig(n);
    Membership.MedianMeetsCounting(n, v);
  }

  lemma Advances(w: World, i: int, n: Node, v: int)
    requires Settled(w, i, n) && n.role == Leader
    requires v == CommitIndex.Majority(n.matchIndex, n.LastIndex()) && 0 <= v <= n.LastIndex()
    ensures AdvanceCommit(n) == n.(commitIdx := if n.commitIdx < v then v else n.commitIdx)
  {
    if 1 <= v { MajorityMayCommit(w, i, n, v); }
  }

  lemma AdvancesShifted(w: World, i: int, n: Node, m: Node)
    requires Shifts(w, i, n, m) && n.role == Leader
    ensures Shifts(w, i, AdvanceCommit(n), AdvanceCommit(m))
  {
    MajorityFurther(w, i, n, m);
    Advances(w, i, n, CommitIndex.Majority(n.matchIndex, n.LastIndex()));
    Advances(w, i, m, CommitIndex.Majority(m.matchIndex, m.LastIndex()));
  }

  lemma NotedShifted(w: World, i: int, n: Node, m: Node, j: int)
    requires Shifts(w, i, n, m) && n.role == Leader && j in n.peers
    ensures Shifts(w, i, Noted(n, j, |n.log|), Noted(m, j, |m.log|))
  {
  }

  lemma SettlesShifted(w: World, i: int, n: Node, m: Node, j: int, reply: AppendReply)
    requires Shifts(w, i, n, m) && n.role == Leader && j in n.peers
    requires reply == NoReply || reply == Reply(true, n.currentTerm)
    ensures Shifts(w, i, Settle(n, j, reply), Settle(m, j, reply))
  {
    if reply.Reply? {
      NotedShifted(w, i, n, m, j);
      AdvancesShifted(w, i, Noted(n, j, |n.log|), Noted(m, j, |m.log|));
    }
  }

  // ----- events -----

  /** No follower takes entries unchecked in this event. */
  ghost predicate Checked(s: System, e: Event) {
    e.Exchange? && e.i in s.nodes && e.j in s.nodes && Outbound(s.nodes[e.i], e.j).SendAppend? ==>
      !Unchecked(s.nodes[e.j], Outbound(s.nodes[e.i], e.j).args)
  }

  ghost function ImageOf(s1: System, m: AppendArgs): (m1: AppendArgs)
    requires Announces(s1, m)
    ensures m1 in s1.announcements && ShiftsAppend(m, m1)
  {
    var m1 :| m1 in s1.announcements && ShiftsAppend(m, m1);
    m1
  }

  /** The event of the image. What is applied is not compared: instead of applying a node asks for votes once more. */
  ghost function ImageEvent(s1: System, e: Event): Event {
    match e
    case CastVote(j, m) => CastVote(j, ShiftedRequest(m))
    case Announced(j, m) => if Announces(s1, m) then Announced(j, ImageOf(s1, m)) else e
    case Apply(i) => AskVotes(i)
    case _ => e
  }

  lemma PutMirrors(w: World, s: System, s1: System, i: int, n: Node, m: Node)
    requires Mirrors(w, s, s1) && i in w.ids && Shifts(w, i, n, m)
    ensures Mirrors(w, Put(s, i, n), Put(s1, i, m))
  {
    var t1 := Put(s1, i, m);
    forall r | r in s.announcements ensures Announces(t1, r) {
      assert Announces(s1, r);
      assert ImageOf(s1, r) in t1.announcements;
    }
  }

  lemma AppliesShifted(w: World, i: int, n: Node, m: Node)
    requires Shifts(w, i, n, m) && CrashRuns.PlainLog(n.log)
    ensures Shifts(w, i, ApplyNext(n), m)
  {
    if NextEntry(n).Some? { assert NextEntry(n).value in n.log; }
  }

  lemma DeliversShifted(w: World, i: int, n: Node, m: Node, j: int, f: Node, f1: Node)
    requires Shifts(w, i, n, m) && n.role == Leader && j in n.peers && Shifts(w, j, f, f1)
    requires Outbound(n, j).SendAppend? ==> !Unchecked(f, Outbound(n, j).args)
    ensures Shifts(w, j, Deliver(n, f).0, Deliver(m, f1).0)
    ensures Deliver(m, f1).1 == Deliver(n, f).1
    ensures Deliver(n, f).1 == NoReply || Deliver(n, f).1 == Reply(true, n.currentTerm)
  {
    ShipsShifted(w, i, n, m, j);
    AppendsShifted(w, j, f, f1, Outbound(n, j).args, Outbound(m, j).args);
    OutcomeOfAppend(n, f);
    OutcomeOfAppend(m, f1);
  }

  lemma AsksMirrored(w: World, s: System, s1: System, i: int)
    requires Mirrors(w, s, s1) && i in w.ids
    ensures Mirrors(w, s.(requests := s.requests + {VoteRequestOf(s.nodes[i])}),
                       s1.(requests := s1.requests + {VoteRequestOf(s1.nodes[i])}))
  {
    var t1 := s1.(requests := s1.requests + {VoteRequestOf(s1.nodes[i])});
    StandsShifted(w, i, s.nodes[i], s1.nodes[i]);
    forall r | r in s.announcements ensures Announces(t1, r) {
      assert Announces(s1, r);
      assert ImageOf(s1, r) in t1.announcements;
    }
  }

  lemma GrantsMirrored(w: World, s: System, s1: System, g: set<Grant>)
    requires Mirrors(w, s, s1)
    ensures Mirrors(w, s.(grants := g), s1.(grants := g))
  {
    var t1 := s1.(grants := g);
    forall r | r in s.announcements ensures Announces(t1, r) {
      assert Announces(s1, r);
      assert ImageOf(s1, r) in t1.announcements;
    }
  }

  lemma AnnouncesMirrored(w: World, s: System, s1: System, m: AppendArgs, m1: AppendArgs)
    requires Mirrors(w, s, s1) && ShiftsAppend(m, m1) && m.entries == []
    ensures Mirrors(w, s.(announcements := s.announcements + {m}), s1.(announcements := s1.announcements + {m1}))
  {
    var t1 := s1.(announcements := s1.announcements + {m1});
    forall r | r in s.announcements + {m} ensures Announces(t1, r) {
      if r in s.announcements {
        assert Announces(s1, r);
        assert ImageOf(s1, r) in t1.announcements;
      } else {
        assert m1 in t1.announcements;
      }
    }
  }

  lemma CastVoteMirrored(w: World, s: System, s1: System, j: int, r: VoteRequest)
    requires Mirrors(w, s, s1) && Enabled(w, s, CastVote(j, r))
    ensures Enabled(Image(w), s1, CastVote(j, ShiftedRequest(r)))
    ensures Mirrors(w, Do(w, s, CastVote(j, r)), Do(Image(w), s1, CastVote(j, ShiftedRequest(r))))
  {
    VotesShifted(w, j, s.nodes[j], s1.nodes[j], r);
    var n, m := RequestVote(s.nodes[j], r).0, RequestVote(s1.nodes[j], ShiftedRequest(r)).0;
    PutMirrors(w, s, s1, j, n, m);
    GrantsMirrored(w, Put(s, j, n), Put(s1, j, m), Do(w, s, CastVote(j, r)).grants);
  }

  lemma WinsShifted(w: World, i: int, n: Node, m: Node)
    requires Shifts(w, i, n, m)
    ensures Shifts(w, i, BecomeLeader(n), BecomeLeader(m))
    ensures var n', m' := BecomeLeader(n), BecomeLeader(m);
      && ShiftsAppend(WindowFrom(n', n'.LastIndex() + 1), WindowFrom(m', m'.LastIndex() + 1))
      && WindowFrom(n', n'.LastIndex() + 1).entries == []
  {
    LeadsShifted(w, i, n, m);
    WindowShifted(w, i, BecomeLeader(n), BecomeLeader(m), n.LastIndex() + 1);
  }

  /** The system after node `i` has won. */
  function Won(s: System, i: int): System
    requires i in s.nodes
  {
    var n := BecomeLeader(s.nodes[i]);
    Put(s, i, n).(announcements := s.announcements + {WindowFrom(n, n.LastIndex() + 1)})
  }

  lemma WonMirrored(w: World, s: System, s1: System, i: int)
    requires Mirrors(w, s, s1) && i in w.ids
    ensures Mirrors(w, Won(s, i), Won(s1, i))
  {
    var n, m := BecomeLeader(s.nodes[i]), BecomeLeader(s1.nodes[i]);
    WinsShifted(w, i, s.nodes[i], s1.nodes[i]);
    PutMirrors(w, s, s1, i, n, m);
    AnnouncesMirrored(w, Put(s, i, n), Put(s1, i, m),
                      WindowFrom(n, n.LastIndex() + 1), WindowFrom(m, m.LastIndex() + 1));
  }

  lemma WinIsWon(w: World, s: System, i: int, voters: set<int>)
    requires Enabled(w, s, Win(i, voters))
    ensures Do(w, s, Win(i, voters)) == Won(s, i)
  {
  }

  lemma WinEnabled(w: World, s: System, s1: System, i: int, voters: set<int>)
    requires Mirrors(w, s, s1) && Enabled(w, s, Win(i, voters))
    ensures Enabled(Image(w), s1, Win(i, voters))
  {
  }

  lemma WinMirrored(w: World, s: System, s1: System, i: int, voters: set<int>)
    requires Mirrors(w, s, s1) && Enabled(w, s, Win(i, voters))
    ensures Enabled(Image(w), s1, Win(i, voters))
    ensures Mirrors(w, Do(w, s, Win(i, voters)), Do(Image(w), s1, Win(i, voters)))
  {
    WinEnabled(w, s, s1, i, voters);
    WonMirrored(w, s, s1, i);
    WinIsWon(w, s, i, voters);
    WinIsWon(Image(w), s1, i, voters);
  }

  lemma AnnouncedMirrored(w: World, s: System, s1: System, j: int, m: AppendArgs)
    requires Mirrors(w, s, s1) && Enabled(w, s, Announced(j, m))
    ensures Announces(s1, m) && Enabled(Image(w), s1, Announced(j, ImageOf(s1, m)))
    ensures Mirrors(w, Do(w, s, Announced(j, m)), Do(Image(w), s1, Announced(j, ImageOf(s1, m))))
  {
    var m1 := ImageOf(s1, m);
    AppendsShifted(w, j, s.nodes[j], s1.nodes[j], m, m1);
    PutMirrors(w, s, s1, j, AppendEntries(s.nodes[j], m).0, AppendEntries(s1.nodes[j], m1).0);
  }

  lemma ExchangeMirrored(w: World, s: System, s1: System, i: int, j: int, replied: bool)
    requires Mirrors(w, s, s1) && Enabled(w, s, Exchange(i, j, replied)) && Checked(s, Exchange(i, j, replied))
    ensures Enabled(Image(w), s1, Exchange(i, j, replied))
    ensures Mirrors(w, Do(w, s, Exchange(i, j, replied)), Do(Image(w), s1, Exchange(i, j, replied)))
  {
    var n, m := s.nodes[i], s1.nodes[i];
    DeliversShifted(w, i, n, m, j, s.nodes[j], s1.nodes[j]);
    var (f, reply) := Deliver(n, s.nodes[j]);
    var (f1, reply1) := Deliver(m, s1.nodes[j]);
    PutMirrors(w, s, s1, j, f, f1);
    if replied {
      SettlesShifted(w, i, n, m, j, reply);
      PutMirrors(w, Put(s, j, f), Put(s1, j, f1), i, Settle(n, j, reply), Settle(m, j, reply1));
    }
  }

  lemma HandlerMirrored(w: World, s: System, s1: System, e: Event)
    requires Mirrors(w, s, s1) && Enabled(w, s, e) && (e.Timeout? || e.Lose? || e.Submit? || e.Restart?)
    ensures Enabled(Image(w), s1, e) && Mirrors(w, Do(w, s, e), Do(Image(w), s1, e))
  {
    var n, m := s.nodes[e.i], s1.nodes[e.i];
    match e
    case Timeout(i) =>
      StandsShifted(w, i, n, m);
      PutMirrors(w, s, s1, i, StartElection(n), StartElection(m));
    case Lose(i) => PutMirrors(w, s, s1, i, n.(role := Follower), m.(role := Follower));
    case Submit(i, command) =>
      ProposesShifted(w, i, n, m, command);
      PutMirrors(w, s, s1, i, Propose(n, command).0, Propose(m, command).0);
    case Restart(i) =>
      RestartsShifted(w, i, n, m);
      PutMirrors(w, s, s1, i, Recover(i, w.ids - {i}, n.disk), Recover(i, w.ids - {i}, m.disk));
  }

  lemma ApplyMirrored(w: World, s: System, s1: System, i: int)
    requires Mirrors(w, s, s1) && i in w.ids && CrashRuns.PlainLog(s.nodes[i].log)
    ensures Mirrors(w, Put(s, i, ApplyNext(s.nodes[i])),
                       s1.(requests := s1.requests + {VoteRequestOf(s1.nodes[i])}))
  {
    AppliesShifted(w, i, s.nodes[i], s1.nodes[i]);
    AsksMirrored(w, s, s1, i);
    var t1 := s1.(requests := s1.requests + {VoteRequestOf(s1.nodes[i])});
    PutMirrors(w, s.(requests := s.requests + {VoteRequestOf(s.nodes[i])}), t1, i, ApplyNext(s.nodes[i]), t1.nodes[i]);
    assert Put(t1, i, t1.nodes[i]).nodes == t1.nodes;
  }

  /** Every event that takes nothing unchecked is one of the image. */
  lemma StepMirrored(w: World, s: System, s1: System, e: Event)
    requires Mirrors(w, s, s1) && Enabled(w, s, e) && Checked(s, e) && CrashRuns.AllSound(w, s)
    ensures Enabled(Image(w), s1, ImageEvent(s1, e))
    ensures Mirrors(w, Do(w, s, e), Do(Image(w), s1, ImageEvent(s1, e)))
  {
    match e
    case AskVotes(i) => AsksMirrored(w, s, s1, i);
    case CastVote(j, r) => CastVoteMirrored(w, s, s1, j, r);
    case Win(i, voters) => WinMirrored(w, s, s1, i, voters);
    case Announced(j, m) => AnnouncedMirrored(w, s, s1, j, m);
    case Exchange(i, j, replied) => ExchangeMirrored(w, s, s1, i, j, replied);
    case Apply(i) => ApplyMirrored(w, s, s1, i);
    case _ => HandlerMirrored(w, s, s1, e);
  }

  // ----- runs -----

  ghost predicate AllChecked(states: seq<System>, events: seq<Event>) {
    forall k :: 0 <= k < |events| && k < |states| ==> Checked(states[k], events[k])
  }

  ghost predicate AllMirrored(w: World, states: seq<System>, states1: seq<System>) {
    |states1| == |states| && forall x :: 0 <= x < |states| ==> Mirrors(w, states[x], states1[x])
  }

  lemma BootsMirrored(w: World, s: System) returns (s1: System)
    requires w.prefix == [] && Initial(w, s)
    ensures Initial(Image(w), s1) && Mirrors(w, s, s1)
  {
    s1 := System(map i | i in w.ids :: Recover(i, w.ids - {i}, BootDisk(Image(w))), {}, {}, {});
    forall i | i in w.ids ensures Shifts(w, i, s.nodes[i], s1.nodes[i]) { BootsShifted(w, i); }
  }

  lemma OneMoreMirrored(w: World, states: seq<System>, states1: seq<System>, s: System, s1: System)
    requires AllMirrored(w, states, states1) && Mirrors(w, s, s1)
    ensures AllMirrored(w, states + [s], states1 + [s1])
  {
  }

  /** The run whose nodes hold one entry more in front. */
  lemma {:induction false} ImageRun(w: World, states: seq<System>, events: seq<Event>)
      returns (states1: seq<System>, events1: seq<Event>)
    requires WellFormed(w) && w.prefix == [] && IsRun(w, states, events) && AllChecked(states, events)
    ensures IsRun(Image(w), states1, events1) && AllMirrored(w, states, states1)
    decreases |events|
  {
    if events == [] {
      var s1 := BootsMirrored(w, states[0]);
      states1, events1 := [s1], [];
    } else {
      var k := |events| - 1;
      RunPrefix(w, states, events);
      assert AllChecked(states[..k + 1], events[..k]);
      states1, events1 := ImageRun(w, states[..k + 1], events[..k]);
      CrashRuns.RunIsCrashRun(w, states, events);
      CrashRuns.SoundRun(w, states, events, k);
      assert Next(w, states[k], events[k], states[k + 1]);
      StepMirrored(w, states[k], states1[k], events[k]);
      var before := states1;
      var s1;
      states1, events1, s1 :=
        Scenarios.Extended(Image(w), states1, events1, states1[k], ImageEvent(states1[k], events[k]));
      OneMoreMirrored(w, states[..k + 1], before, states[k + 1], s1);
      assert states == states[..k + 1] + [states[k + 1]];
    }
  }

  lemma ImageIsRun(w: World, states1: seq<System>, events1: seq<Event>)
    requires WellFormed(w) && IsRun(Image(w), states1, events1)
    ensures Run(Image(w), states1, events1)
  {
  }

  // ----- what holds of runs without unchecked appends -----

  /** From a non-empty first log nothing is ever taken unchecked. */
  lemma PrefixIsChecked(w: World, states: seq<System>, events: seq<Event>)
    requires Run(w, states, events)
    ensures AllChecked(states, events)
  {
    forall k | 0 <= k < |events| ensures Checked(states[k], events[k]) {
      var e := events[k];
      assert Next(w, states[k], e, states[k + 1]);
      if e.Exchange? { OwnTermShipping(w, states, events, k, e.i, e.j); }
    }
  }

  lemma PrefixFurther(w: World, a: int, n: Node, m: Node, b: int, n': Node, m': Node, k: nat)
    requires Shifts(w, a, n, m) && Shifts(w, b, n', m') && (k > 0 ==> SamePrefix(m, m', k + 1))
    ensures SamePrefix(n, n', k)
  {
    if k == 0 {
      assert n.log[..0] == n'.log[..0];
    } else {
      assert n.log[..k] == m.log[..k + 1][1..] && n'.log[..k] == m'.log[..k + 1][1..];
    }
  }

  lemma CommittedFurther(w: World, a: int, n: Node, m: Node, b: int, n': Node, m': Node)
    requires Shifts(w, a, n, m) && Shifts(w, b, n', m') && CommittedAlike(m, m')
    ensures CommittedAlike(n, n')
  {
    forall k: nat | k <= n.commitIdx && k <= n'.commitIdx ensures SamePrefix(n, n', k) {
      PrefixFurther(w, a, n, m, b, n', m', k);
    }
  }

  lemma SafeWithoutPrefix(w: World, states: seq<System>, events: seq<Event>)
    requires WellFormed(w) && w.prefix == [] && IsRun(w, states, events) && AllChecked(states, events)
    ensures CommitsAgree(states)
  {
    var states1, events1 := ImageRun(w, states, events);
    ImageIsRun(w, states1, events1);
    SafeFromPrefix(Image(w), states1, events1);
    forall x: nat, a: int, y: nat, b: int | HasNode(states, x, a) && HasNode(states, y, b)
      ensures CommittedAlike(states[x].nodes[a], states[y].nodes[b])
    {
      assert Mirrors(w, states[x], states1[x]) && Mirrors(w, states[y], states1[y]);
      assert HasNode(states1, x, a) && HasNode(states1, y, b);
      CommittedFurther(w, a, states[x].nodes[a], states1[x].nodes[a], b, states[y].nodes[b], states1[y].nodes[b]);
    }
  }

  /**
   State machine safety, run by run: from any first log, a run is safe in which no entries are put behind index zero of
   a log that is not empty. In the source that is the one case in which an append is neither checked nor truncated.
  */
  lemma SafeWhenChecked(w: World, states: seq<System>, events: seq<Event>)
    requires WellFormed(w) && IsRun(w, states, events) && AllChecked(states, events)
    ensures CommitsAgree(states)
  {
    if w.prefix == [] {
      SafeWithoutPrefix(w, states, events);
    } else {
      SafeFromPrefix(w, states, events);
    }
  }

  ghost predicate LaterLeader(n: Node, m: Node) {
    n.role == Leader && m.role == Leader && n.currentTerm < m.currentTerm
  }

  lemma NodeMirrored(w: World, states: seq<System>, states1: seq<System>, x: nat, a: int)
    requires AllMirrored(w, states, states1) && HasNode(states, x, a)
    ensures HasNode(states1, x, a) && Shifts(w, a, states[x].nodes[a], states1[x].nodes[a])
  {
    assert Mirrors(w, states[x], states1[x]);
  }

  lemma RunLeadersComplete(w: World, states: seq<System>, events: seq<Event>, x: nat, a: int, y: nat, b: int)
    requires Run(w, states, events) && HasNode(states, x, a) && HasNode(states, y, b)
    requires LaterLeader(states[x].nodes[a], states[y].nodes[b])
    ensures SamePrefix(states[x].nodes[a], states[y].nodes[b], states[x].nodes[a].commitIdx)
  {
    LeaderCompleteness(w, states, events, x, a, y, b);
  }

  lemma CompleteFurther(w: World, a: int, n: Node, m: Node, b: int, n': Node, m': Node)
    requires Shifts(w, a, n, m) && Shifts(w, b, n', m') && SamePrefix(m, m', m.commitIdx)
    ensures SamePrefix(n, n', n.commitIdx)
  {
    PrefixFurther(w, a, n, m, b, n', m', n.commitIdx);
  }

  lemma LeadersCompleteWithoutPrefix(w: World, states: seq<System>, events: seq<Event>, x: nat, a: int, y: nat, b: int)
    requires WellFormed(w) && w.prefix == [] && IsRun(w, states, events) && AllChecked(states, events)
    requires HasNode(states, x, a) && HasNode(states, y, b) && LaterLeader(states[x].nodes[a], states[y].nodes[b])
    ensures SamePrefix(states[x].nodes[a], states[y].nodes[b], states[x].nodes[a].commitIdx)
  {
    var states1, events1 := ImageRun(w, states, events);
    ImageIsRun(w, states1, events1);
    NodeMirrored(w, states, states1, x, a);
    NodeMirrored(w, states, states1, y, b);
    RunLeadersComplete(Image(w), states1, events1, x, a, y, b);
    CompleteFurther(w, a, states[x].nodes[a], states1[x].nodes[a], b, states[y].nodes[b], states1[y].nodes[b]);
  }

  /** Leader completeness, run by run. */
  lemma LeadersCompleteWhenChecked(w: World, states: seq<System>, events: seq<Event>, x: nat, a: int, y: nat, b: int)
    requires WellFormed(w) && IsRun(w, states, events) && AllChecked(states, events)
    requires HasNode(states, x, a) && HasNode(states, y, b) && LaterLeader(states[x].nodes[a], states[y].nodes[b])
    ensures SamePrefix(states[x].nodes[a], states[y].nodes[b], states[x].nodes[a].commitIdx)
  {
    if w.prefix == [] {
      LeadersCompleteWithoutPrefix(w, states, events, x, a, y, b);
    } else {
      RunLeadersComplete(w, states, events, x, a, y, b);
    }
  }
}
