/**
 The remote procedures of a node, which fill in the caller's reply, the call that a leader makes, and the
 client requests.
*/
module Server {
  import opened Types
  import S = NodeSpec
  import Commands
  import opened Rpc
  import opened Consensus
  import opened Cluster

  class AppendEntriesReply {
    var term: nat
    var success: bool

    constructor () {
      term, success := 0, false;
    }
  }

  class RequestVoteReply {
    var term: nat
    var voteGranted: bool

    constructor () {
      term, voteGranted := 0, false;
    }
  }

  class InstallSnapshotReply {
    var term: nat

    constructor () {
      term := 0;
    }
  }

  class RaftServer {
    const consensus: RaftConsensus

    constructor (consensus: RaftConsensus)
      ensures this.consensus == consensus
    {
      this.consensus := consensus;
    }

    method RequestVote(args: VoteRequest, reply: RequestVoteReply)
      modifies consensus, consensus.persister, reply
      ensures (consensus.State(), reply.voteGranted) == S.RequestVote(old(consensus.State()), args)
      ensures reply.term == consensus.currentTerm
    {
      var granted, term := consensus.RequestVote(args.term, args.candidate, args.lastLogIndex, args.lastLogTerm);
      reply.term, reply.voteGranted := term, granted;
    }

    method AppendEntries(args: AppendArgs, reply: AppendEntriesReply) returns (isError: bool)
      modifies consensus, consensus.persister, reply
      ensures (consensus.State(), !isError) == S.AppendEntries(old(consensus.State()), args)
      ensures ServerAnswer(reply.success, reply.term, isError) == ServerReply(consensus.State(), !isError)
    {
      var accepted := consensus.AppendEntries(args);
      reply.term := consensus.currentTerm;
      if !accepted {
        reply.success := false;
      } else {
        reply.success := true;
      }
      return !accepted;
    }

    method InstallSnapshot(args: InstallArgs, reply: InstallSnapshotReply) returns (isError: bool)
      modifies consensus, consensus.store, consensus.persister, reply
      ensures (consensus.State(), !isError) == S.InstallSnapshot(old(consensus.State()), args)
      ensures reply.term == consensus.currentTerm
    {
      var ok, term := consensus.InstallSnapshot(args);
      reply.term := term;
      return !ok;
    }
  }

  /**
   The leader's side of an append, whose request reaches the server if `delivered`, and its answer the
   leader if `answered`.
  */
  method SendAppendEntries(server: RaftServer, args: AppendArgs, delivered: bool, answered: bool)
      returns (result: AppendReply)
    modifies server.consensus, server.consensus.persister
    ensures !delivered ==> server.consensus.State() == old(server.consensus.State()) && result == NoReply
    ensures delivered ==>
      var (n, accepted) := S.AppendEntries(old(server.consensus.State()), args);
      && server.consensus.State() == n
      && result == if answered then ClientView(ServerReply(n, accepted)) else NoReply
  {
    if !delivered {
      return NoReply;
    }
    var reply := new AppendEntriesReply();
    var isError := server.AppendEntries(args, reply);
    if !answered || isError {
      return NoReply;
    }
    return Reply(reply.success, reply.term);
  }

  /** The leader's side of a snapshot installation. */
  method SendInstallSnapshot(server: RaftServer, args: InstallArgs, delivered: bool, answered: bool)
      returns (result: InstallReply)
    modifies server.consensus, server.consensus.store, server.consensus.persister
    ensures !delivered ==> server.consensus.State() == old(server.consensus.State()) && result == NoInstallReply
    ensures delivered ==>
      var (n, accepted) := S.InstallSnapshot(old(server.consensus.State()), args);
      && server.consensus.State() == n
      && result == if answered && accepted then Installed(n.currentTerm) else NoInstallReply
  {
    if !delivered {
      return NoInstallReply;
    }
    var reply := new InstallSnapshotReply();
    var isError := server.InstallSnapshot(args, reply);
    if !answered || isError {
      return NoInstallReply;
    }
    return Installed(reply.term);
  }

  /** Two nodes that share nothing. */
  ghost predicate Apart(a: RaftConsensus, b: RaftConsensus)
    reads a, b, a.store, b.store
  {
    a != b && a.persister != b.persister && a.store != b.store && a.store.data != b.store.data
  }

  /**
   A whole heartbeat exchange with one follower, as one step: for an append it is the cluster's exchange, on the two
   objects.
  */
  method HeartbeatExchange(leader: RaftConsensus, server: RaftServer, delivered: bool, answered: bool)
    requires leader.Valid() && Apart(leader, server.consensus)
    modifies leader, server.consensus, server.consensus.store, server.consensus.persister
    ensures var n, f := old(leader.State()), old(server.consensus.State());
      n.role != Leader || !delivered ==> leader.State() == n && server.consensus.State() == f
    ensures var n, f := old(leader.State()), old(server.consensus.State());
      n.role == Leader && delivered && S.Outbound(n, f.id).SendAppend? ==>
        && server.consensus.State() == Deliver(n, f).0
        && leader.State() == if answered then Settle(n, f.id, Deliver(n, f).1) else n
    ensures var n, f := old(leader.State()), old(server.consensus.State());
      n.role == Leader && delivered && S.Outbound(n, f.id).SendSnapshot? ==>
        var (f', accepted) := S.InstallSnapshot(f, S.Outbound(n, f.id).install);
        && server.consensus.State() == f'
        && leader.State() == if answered && accepted
                             then S.HandleInstallReply(n, f.id, n.currentTerm, n.lastSnapshotIndex,
                                   Installed(f'.currentTerm))
                             else n
  {
    if leader.role == Leader {
      var f := server.consensus.id;
      var sentTerm, sentSnapshotIndex := leader.currentTerm, leader.lastSnapshotIndex;
      var out := leader.Heartbeat(f);
      match out
      case SendAppend(args) =>
        var reply := SendAppendEntries(server, args, delivered, answered);
        leader.OnAppendReply(f, sentTerm, sentSnapshotIndex, reply);
      case SendSnapshot(args) =>
        var reply := SendInstallSnapshot(server, args, delivered, answered);
        leader.OnInstallReply(f, sentTerm, sentSnapshotIndex, reply);
    }
  }

  // ----- client requests -----

  /** What a request handler answers: an error, or the index and term at which the command was proposed. */
  datatype Proposed = NotTheLeader | Proposed(index: int, term: nat)

  /** A SET request at a leader appends exactly its key and value when the key contains no colon. */
  method SetHandler(consensus: RaftConsensus, key: string, value: string) returns (result: Proposed)
    modifies consensus, consensus.persister
    ensures var n := old(consensus.State());
      && consensus.State() == S.Propose(n, Commands.SetCommand(key, value)).0
      && result == (if n.role != Leader then NotTheLeader else Proposed(n.LastIndex() + 1, n.currentTerm))
      && (n.role == Leader && ':' !in key ==>
            consensus.log == n.log + [Entry(n.currentTerm, "SET", key, Text(value), NoChange)])
  {
    if consensus.role != Leader {
      return NotTheLeader;
    }
    Commands.SetRoundTrip(consensus.currentTerm, key, value);
    var index, term, isLeader := consensus.Propose(Commands.SetCommand(key, value));
    return Proposed(index, term);
  }

  /** A DELETE request at a leader appends exactly its key when that contains no colon. */
  method DeleteHandler(consensus: RaftConsensus, key: string) returns (result: Proposed)
    modifies consensus, consensus.persister
    ensures var n := old(consensus.State());
      && consensus.State() == S.Propose(n, Commands.DeleteCommand(key)).0
      && result == (if n.role != Leader then NotTheLeader else Proposed(n.LastIndex() + 1, n.currentTerm))
      && (n.role == Leader && ':' !in key ==>
            consensus.log == n.log + [Entry(n.currentTerm, "DELETE", key, Nil, NoChange)])
  {
    if consensus.role != Leader {
      return NotTheLeader;
    }
    Commands.DeleteRoundTrip(consensus.currentTerm, key);
    var index, term, isLeader := consensus.Propose(Commands.DeleteCommand(key));
    return Proposed(index, term);
  }

  /** A CLEAN request at a leader appends the CLEAN entry. */
  method CleanHandler(consensus: RaftConsensus) returns (result: Proposed)
    modifies consensus, consensus.persister
    ensures var n := old(consensus.State());
      && consensus.State() == S.Propose(n, Commands.CLEAN_COMMAND).0
      && result == (if n.role != Leader then NotTheLeader else Proposed(n.LastIndex() + 1, n.currentTerm))
      && (n.role == Leader ==> consensus.log == n.log + [Entry(n.currentTerm, "CLEAN", "", Nil, NoChange)])
  {
    if consensus.role != Leader {
      return NotTheLeader;
    }
    Commands.CleanRoundTrip(consensus.currentTerm);
    var index, term, isLeader := consensus.Propose(Commands.CLEAN_COMMAND);
    return Proposed(index, term);
  }
}
