/**
 The cluster as a transition system over the node functions. Every handler is one step. A heartbeat exchange is one
 step too, from reading the leader's state to handling the reply, and its reply may be lost; a lost request is no step.
 Vote requests and the empty appends that announce a new leader travel on their own: any number of them may be under
 way, and each may arrive at any later time, or several times, or never.
*/
module Cluster {
  import opened Types
  import opened NodeSpec
  import Commands
  import Rpc

  /** The fixed members, and the term and log that all of them start from. */
  datatype World = World(ids: set<int>, term: nat, prefix: seq<Entry>)

  /** A vote that has been sent to a candidate. */
  datatype Grant = Grant(term: nat, voter: int, candidate: int)

  datatype System = System(
    nodes: map<int, Node>,
    requests: set<VoteRequest>,
    grants: set<Grant>,
    announcements: set<AppendArgs>)

  datatype Event =
    | Timeout(i: int)                              // the election timer of i fires
    | AskVotes(i: int)                             // i reads its state into a vote request
    | CastVote(j: int, request: VoteRequest)       // j answers a vote request
    | Win(i: int, voters: set<int>)                // candidate i has counted enough votes
    | Lose(i: int)                                 // candidate i gives up waiting for votes
    | Announced(j: int, args: AppendArgs)          // an announcement of a new leader reaches j
    | Exchange(i: int, j: int, replied: bool)      // leader i ships to j, and gets the outcome if `replied`
    | Submit(i: int, command: string)              // a client proposes a command to i
    | Apply(i: int)                                // i applies its next committed entry
    | Restart(i: int)                              // i stops and recovers from its disk

  /** Neither a CLEAN, which empties a log under its indices, nor a membership change. */
  predicate Plain(e: Entry) {
    e.command != "CLEAN" && e.change == NoChange
  }

  predicate WellFormed(w: World) {
    && -1 !in w.ids
    && forall p :: 0 <= p < |w.prefix| ==> w.prefix[p].term <= w.term && Plain(w.prefix[p])
  }

  /** The disk that every node starts from. */
  function BootDisk(w: World): Disk {
    Disk(Some(Saved(w.term, -1, w.prefix)), None, map[])
  }

  ghost predicate Initial(w: World, s: System) {
    && s.nodes.Keys == w.ids
    && (forall i :: i in w.ids ==> s.nodes[i] == Recover(i, w.ids - {i}, BootDisk(w)))
    && s.requests == {} && s.grants == {} && s.announcements == {}
  }

  /** What is on disk is what is in memory. */
  predicate Durable(n: Node) {
    n.disk.state == Some(Saved(n.currentTerm, n.votedFor, n.log))
  }

  ghost predicate Enabled(w: World, s: System, e: Event) {
    s.nodes.Keys == w.ids &&
    match e
    case Timeout(i) => i in w.ids && s.nodes[i].role != Leader
    case AskVotes(i) => i in w.ids
    case CastVote(j, m) => j in w.ids && m in s.requests && j != m.candidate
    case Win(i, voters) =>
      && i in w.ids && s.nodes[i].role == Candidate && voters <= s.nodes[i].peers
      && (forall v :: v in voters ==> Grant(s.nodes[i].currentTerm, v, i) in s.grants)
      && WinsElection(s.nodes[i], 1 + |voters|)
    case Lose(i) => i in w.ids && s.nodes[i].role == Candidate
    case Announced(j, m) => j in w.ids && m in s.announcements && j != m.leaderId
    case Exchange(i, j, _) => i in w.ids && s.nodes[i].role == Leader && j in s.nodes[i].peers && j in w.ids
    case Submit(i, command) => i in w.ids && forall t :: Plain(Commands.EntryOf(t, command))
    case Apply(i) => i in w.ids
    case Restart(i) => i in w.ids && Durable(s.nodes[i])
  }

  /** A follower's state, and what the leader sees, after an exchange from leader `n` to follower `f`. */
  function Deliver(n: Node, f: Node): (Node, AppendReply) {
    match Outbound(n, f.id)
    case SendAppend(args) =>
      var (f', accepted) := AppendEntries(f, args);
      (f', Rpc.ClientView(Rpc.ServerReply(f', accepted)))
    case SendSnapshot(_) => (f, NoReply)
  }

  /** The leader after the outcome of an exchange. */
  ghost function Settle(n: Node, j: int, reply: AppendReply): Node {
    HandleAppendReply(n, j, n.currentTerm, n.lastSnapshotIndex, reply)
  }

  /** The system with node `i` in state `n`. */
  function Put(s: System, i: int, n: Node): System {
    s.(nodes := s.nodes[i := n])
  }

  ghost function Do(w: World, s: System, e: Event): System
    requires Enabled(w, s, e)
  {
    match e
    case Timeout(i) => Put(s, i, StartElection(s.nodes[i]))
    case AskVotes(i) => s.(requests := s.requests + {VoteRequestOf(s.nodes[i])})
    case CastVote(j, m) =>
      var (n, granted) := RequestVote(s.nodes[j], m);
      Put(s, j, n).(grants := if granted then s.grants + {Grant(m.term, j, m.candidate)} else s.grants)
    case Win(i, _) =>
      var n := BecomeLeader(s.nodes[i]);
      Put(s, i, n).(announcements := s.announcements + {WindowFrom(n, n.LastIndex() + 1)})
    case Lose(i) => Put(s, i, s.nodes[i].(role := Follower))
    case Announced(j, m) => Put(s, j, AppendEntries(s.nodes[j], m).0)
    case Exchange(i, j, replied) =>
      var (f, reply) := Deliver(s.nodes[i], s.nodes[j]);
      if replied then Put(Put(s, j, f), i, Settle(s.nodes[i], j, reply)) else Put(s, j, f)
    case Submit(i, command) => Put(s, i, Propose(s.nodes[i], command).0)
    case Apply(i) => Put(s, i, ApplyNext(s.nodes[i]))
    case Restart(i) => Put(s, i, Recover(i, w.ids - {i}, s.nodes[i].disk))
  }

  ghost predicate Next(w: World, s: System, e: Event, s': System) {
    Enabled(w, s, e) && s' == Do(w, s, e)
  }

  /** A run: states that start from an initial one and follow each other by enabled events. */
  ghost predicate IsRun(w: World, states: seq<System>, events: seq<Event>) {
    && |states| == |events| + 1
    && Initial(w, states[0])
    && forall k {:trigger Next(w, states[k], events[k], states[k + 1])} ::
         0 <= k < |events| ==> Next(w, states[k], events[k], states[k + 1])
  }

  ghost predicate HasNode(states: seq<System>, x: nat, a: int) {
    x < |states| && a in states[x].nodes
  }
}
