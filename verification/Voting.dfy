/**
 Election safety, from votes alone: in the atomic runs from any first log, and, for clusters that it holds in, also when
 nodes crash with a disk behind their memory.
*/
module Voting {
  import opened Types
  import opened Sets
  import opened NodeSpec
  import opened Cluster
  import opened CrashRuns
  import C = Crashes

  // ----- a winner and its voters -----

  /** Node `a` wins term `t` at event `z` with the votes of these nodes. */
  ghost predicate WinsWith(states: seq<System>, events: seq<Event>, z: nat, a: int, t: nat, voters: set<int>) {
    WonTerm(states, events, z, a, t) && events[z] == Win(a, voters)
  }

  /** The winner and its voters are a majority; the voters' grants are under way and the winner has voted for itself. */
  lemma WinnersVotes(w: World, states: seq<System>, events: seq<Event>, z: nat, a: int, t: nat, voters: set<int>)
    requires WellFormed(w) && IsCrashRun(w, states, events) && WinsWith(states, events, z, a, t, voters)
    ensures a in w.ids && voters <= w.ids - {a} && |voters + {a}| > |w.ids| / 2
    ensures forall v :: v in voters ==> Grant(t, v, a) in states[z].grants
    ensures states[z].nodes[a].votedFor == a && states[z].nodes[a].currentTerm == t
  {
    SoundRun(w, states, events, z);
    assert CrashNext(w, states[z], events[z], states[z + 1]);
    var n := states[z].nodes[a];
    assert Sound(w, a, n);
    assert |n.peers| + 1 == |w.ids|;
    assert |voters + {a}| == |voters| + 1;
  }

  /** Who has granted its vote to another in a term does not stand behind a win of its own in that term. */
  lemma VoterHasNotWon(w: World, states: seq<System>, events: seq<Event>, z: nat, a: int, t: nat, c: int)
    requires WellFormed(w) && IsCrashRun(w, states, events) && z < |states|
    requires HasNode(states, z, a) && states[z].nodes[a].currentTerm == t && states[z].nodes[a].votedFor == a
    ensures Grant(t, a, c) !in states[z].grants
  {
    RunKeepsVotes(w, states, events, z);
    assert Grant(t, a, c) in states[z].grants ==> Kept(w, states[z], Grant(t, a, c));
  }

  /**
   If two nodes win one term, a node that counts for both can only be the first winner, and it has granted its vote to
   the second: every other vote is on disk before it counts.
  */
  lemma OnlyFirstWinnerCountsTwice(w: World, states: seq<System>, events: seq<Event>,
        z: nat, a: int, voters: set<int>, y: nat, b: int, voters': set<int>, t: nat, v: int)
    requires WellFormed(w) && IsCrashRun(w, states, events) && z <= y && a != b
    requires WinsWith(states, events, z, a, t, voters) && WinsWith(states, events, y, b, t, voters')
    requires v in voters + {a} && v in voters' + {b}
    ensures v == a && Grant(t, a, b) in states[y].grants
  {
    WinnersVotes(w, states, events, z, a, t, voters);
    WinnersVotes(w, states, events, y, b, t, voters');
    GrantsStay(w, states, events, z, y);
    RunKeepsVotes(w, states, events, y);
    VoterHasNotWon(w, states, events, y, b, t, a);
    assert Grant(t, v, a) in states[y].grants && Grant(t, v, b) in states[y].grants ==>
        SameVote(Grant(t, v, a), Grant(t, v, b));
  }

  // ----- when nothing is lost -----

  /** The node remembers its vote for itself, and has granted no other in that term. */
  ghost predicate StandsBy(s: System, a: int, t: nat) {
    && a in s.nodes && C.MemoryRemembers(s.nodes[a], C.Vote(t, a))
    && forall c: int :: Grant(t, a, c) !in s.grants
  }

  lemma RestartRemembers(w: World, n: Node, v: C.Vote)
    requires Sound(w, n.id, n) && Durable(n) && C.MemoryRemembers(n, v)
    ensures C.MemoryRemembers(Recover(n.id, n.peers, n.disk), v)
  {
  }

  lemma StillRemembers(w: World, s: System, e: Event, a: int, v: C.Vote)
    requires WellFormed(w) && AllSound(w, s) && Enabled(w, s, e) && a in w.ids && C.MemoryRemembers(s.nodes[a], v)
    ensures a in Do(w, s, e).nodes && C.MemoryRemembers(Do(w, s, e).nodes[a], v)
  {
    EventActs(w, s, e, a);
    if ActionOn(s, e, a).Some? {
      EventIsTame(w, s, e, a);
      C.VoteIsRemembered(s.nodes[a], ActionOn(s, e, a).value, v);
      if e.Restart? { RestartRemembers(w, s.nodes[a], v); }
    }
  }

  lemma StillStandsBy(w: World, s: System, e: Event, a: int, t: nat)
    requires WellFormed(w) && AllSound(w, s) && Enabled(w, s, e) && a in w.ids && StandsBy(s, a, t)
    ensures StandsBy(Do(w, s, e), a, t)
  {
    StillRemembers(w, s, e, a, C.Vote(t, a));
    forall c: int ensures Grant(t, a, c) !in Do(w, s, e).grants {
      if Grant(t, a, c) in Do(w, s, e).grants {
        NewGrant(w, s, e, Grant(t, a, c));
        C.GrantIsRecorded(s.nodes[a], e.request);
        assert false;
      }
    }
  }

  /** In an atomic run a winner stands by its vote for itself for ever after. */
  lemma {:induction false} WinnerStandsBy(w: World, states: seq<System>, events: seq<Event>,
        z: nat, a: int, t: nat, voters: set<int>, y: nat)
    requires WellFormed(w) && IsRun(w, states, events) && z <= y < |states|
    requires WinsWith(states, events, z, a, t, voters)
    ensures StandsBy(states[y], a, t)
    decreases y
  {
    RunIsCrashRun(w, states, events);
    if y == z {
      WinnersVotes(w, states, events, z, a, t, voters);
      forall c: int ensures Grant(t, a, c) !in states[z].grants {
        VoterHasNotWon(w, states, events, z, a, t, c);
      }
    } else {
      var k := y - 1;
      WinnerStandsBy(w, states, events, z, a, t, voters, k);
      SoundRun(w, states, events, k);
      assert Next(w, states[k], events[k], states[k + 1]);
      StillStandsBy(w, states[k], events[k], a, t);
    }
  }

  // ----- election safety -----

  /** Two winners of one term, in the order in which they win it. */
  lemma FirstWinnerOnly(w: World, states: seq<System>, events: seq<Event>, z: nat, a: int, y: nat, b: int, t: nat)
    requires WellFormed(w) && IsRun(w, states, events) && z <= y
    requires WonTerm(states, events, z, a, t) && WonTerm(states, events, y, b, t)
    ensures a == b
  {
    var voters, voters' := events[z].voters, events[y].voters;
    RunIsCrashRun(w, states, events);
    if a != b {
      WinnersVotes(w, states, events, z, a, t, voters);
      WinnersVotes(w, states, events, y, b, t, voters');
      var v := MajoritiesMeet(w.ids, voters + {a}, voters' + {b});
      OnlyFirstWinnerCountsTwice(w, states, events, z, a, voters, y, b, voters', t, v);
      WinnerStandsBy(w, states, events, z, a, t, voters, y);
      assert false;
    }
  }

  lemma OneWinner(w: World, states: seq<System>, events: seq<Event>, z: nat, a: int, y: nat, b: int, t: nat)
    requires WellFormed(w) && IsRun(w, states, events)
    requires WonTerm(states, events, z, a, t) && WonTerm(states, events, y, b, t)
    ensures a == b
  {
    if z <= y {
      FirstWinnerOnly(w, states, events, z, a, y, b, t);
    } else {
      FirstWinnerOnly(w, states, events, y, b, z, a, t);
    }
  }

  /**
   Election safety: over a whole run, from any first log, at most one node is ever leader in a given term.
  */
  lemma ElectionSafety(w: World, states: seq<System>, events: seq<Event>, x: nat, a: int, y: nat, b: int)
    requires WellFormed(w) && IsRun(w, states, events) && HasNode(states, x, a) && HasNode(states, y, b)
    requires states[x].nodes[a].role == Leader && states[y].nodes[b].role == Leader
    requires states[x].nodes[a].currentTerm == states[y].nodes[b].currentTerm
    ensures a == b
  {
    RunIsCrashRun(w, states, events);
    var z := LeaderHasWon(w, states, events, x, a);
    var z' := LeaderHasWon(w, states, events, y, b);
    OneWinner(w, states, events, z, a, z', b, states[x].nodes[a].currentTerm);
  }

  // ----- with crashes that lose a vote -----

  /** Two majorities of an even number of nodes have two nodes in common. */
  lemma EvenMajoritiesMeetTwice(all: set<int>, a: set<int>, b: set<int>, first: int) returns (v: int)
    requires a <= all && b <= all && |all| % 2 == 0 && |a| > |all| / 2 && |b| > |all| / 2
    ensures v in a && v in b && v != first
  {
    assert |a - {first}| >= |a| - 1;
    if (a - {first}) * b == {} {
      assert |(a - {first}) + b| == |a - {first}| + |b|;
      SubsetSize((a - {first}) + b, all);
      assert false;
    }
    v := Pick((a - {first}) * b);
  }

  lemma FirstWinnerOnlyDespiteCrashes(w: World, states: seq<System>, events: seq<Event>,
        z: nat, a: int, y: nat, b: int, t: nat)
    requires WellFormed(w) && IsCrashRun(w, states, events) && z <= y && |w.ids| % 2 == 0
    requires WonTerm(states, events, z, a, t) && WonTerm(states, events, y, b, t)
    ensures a == b
  {
    var voters, voters' := events[z].voters, events[y].voters;
    if a != b {
      WinnersVotes(w, states, events, z, a, t, voters);
      WinnersVotes(w, states, events, y, b, t, voters');
      var v := EvenMajoritiesMeetTwice(w.ids, voters + {a}, voters' + {b}, a);
      OnlyFirstWinnerCountsTwice(w, states, events, z, a, voters, y, b, voters', t, v);
      assert false;
    }
  }

  /**
   In a cluster of an even number of nodes election safety survives even crashes that lose a vote: one node at most
   counts twice, and two majorities have two in common.
  */
  lemma EvenClustersElectOne(w: World, states: seq<System>, events: seq<Event>, x: nat, a: int, y: nat, b: int)
    requires WellFormed(w) && IsCrashRun(w, states, events) && HasNode(states, x, a) && HasNode(states, y, b)
    requires states[x].nodes[a].role == Leader && states[y].nodes[b].role == Leader && |w.ids| % 2 == 0
    requires states[x].nodes[a].currentTerm == states[y].nodes[b].currentTerm
    ensures a == b
  {
    var z := LeaderHasWon(w, states, events, x, a);
    var z' := LeaderHasWon(w, states, events, y, b);
    if z <= z' {
      FirstWinnerOnlyDespiteCrashes(w, states, events, z, a, z', b, states[x].nodes[a].currentTerm);
    } else {
      FirstWinnerOnlyDespiteCrashes(w, states, events, z', b, z, a, states[x].nodes[a].currentTerm);
    }
  }
}
