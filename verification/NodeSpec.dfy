/** One node's state as a value, and what every handler does to it, as functions. */
module NodeSpec {
  import opened Types
  import opened StateMachine
  import Commands
  import CommitIndex

  datatype Node = Node(
    id: int,
    peers: set<int>,
    currentTerm: nat,
    votedFor: int,
    role: Role,
    leaderId: int,
    log: seq<Entry>,
    commitIdx: nat,
    lastApplied: nat,
    nextIndex: map<int, int>,
    matchIndex: map<int, int>,
    snapshot: Option<Snapshot>,
    lastSnapshotIndex: nat,
    lastSnapshotTerm: nat,
    config: ConfigState,
    store: Data,
    disk: Disk)
  {
    /** The global index of the last entry. */
    function LastIndex(): nat {
      lastSnapshotIndex + |log|
    }

    /** The term of the last entry, or of the snapshot when no entry follows it. */
    function LastTerm(): nat {
      if |log| > 0 then log[|log| - 1].term else lastSnapshotTerm
    }

    /** Writes term, vote and log to disk. */
    function Save(): Node {
      this.(disk := disk.(state := Some(Saved(currentTerm, votedFor, log))))
    }
  }

  /** Reading a missing key of a Go map of integers yields zero. */
  function Lookup(m: map<int, int>, k: int): int {
    if k in m then m[k] else 0
  }

  /** The map with every one of `keys` set to `v`. */
  function AllSet(m: map<int, int>, keys: set<int>, v: int): map<int, int> {
    m + map k | k in keys :: v
  }

  /** The map with those of `keys` that it misses set to `v`. */
  function MissingSet(m: map<int, int>, keys: set<int>, v: int): map<int, int> {
    m + map k | k in keys && k !in m :: v
  }

  /** The keys of a map that are not in `keys`. */
  function Others(m: map<int, int>, keys: set<int>): set<int> {
    m.Keys - keys
  }

  // ----- voting -----

  /** A candidate's log is at least as up to date: a later last term, or the same one and no shorter. */
  predicate UpToDate(candidateTerm: nat, candidateIndex: int, lastTerm: nat, lastIndex: int) {
    candidateTerm > lastTerm || (candidateTerm == lastTerm && candidateIndex >= lastIndex)
  }

  /** A request of a higher term moves the node to that term, with no vote cast, before it is considered. */
  function ObserveCandidate(n: Node, term: nat): Node {
    if term > n.currentTerm then n.(currentTerm := term, votedFor := -1).Save().(role := Follower) else n
  }

  /** A node of the request's term or a later one grants it: same term, vote free, and a log no less up to date. */
  predicate Grants(n: Node, m: VoteRequest) {
    && m.term >= n.currentTerm
    && (n.votedFor == -1 || n.votedFor == m.candidate)
    && UpToDate(m.lastLogTerm, m.lastLogIndex, n.LastTerm(), n.LastIndex())
  }

  /** Answers a vote request: the new state, and whether the vote was granted. */
  function RequestVote(n: Node, m: VoteRequest): (Node, bool) {
    var n' := ObserveCandidate(n, m.term);
    if Grants(n', m) then (n'.(votedFor := m.candidate).Save(), true) else (n', false)
  }

  /** The election timer fires: the node stands for the next term and votes for itself, without saving. */
  function StartElection(n: Node): Node {
    if n.role == Leader then n else n.(role := Candidate, currentTerm := n.currentTerm + 1, votedFor := n.id)
  }

  function VoteRequestOf(n: Node): VoteRequest {
    VoteRequest(n.currentTerm, n.id, n.LastIndex(), n.LastTerm())
  }

  /** More than half of the peers and the node itself. */
  predicate WinsElection(n: Node, votes: nat) {
    votes > (|n.peers| + 1) / 2
  }

  function BecomeLeader(n: Node): Node {
    n.(role := Leader,
       leaderId := n.id,
       nextIndex := AllSet(n.nextIndex, n.peers, n.LastIndex() + 1),
       matchIndex := AllSet(n.matchIndex, n.peers, 0))
  }

  /** How many of the replies are grants. */
  function VotesIn(replies: seq<bool>): nat {
    if replies == [] then 0
    else VotesIn(replies[..|replies| - 1]) + if replies[|replies| - 1] then 1 else 0
  }

  lemma {:induction false} VotesOfPrefix(replies: seq<bool>, k: nat)
    requires k <= |replies|
    ensures VotesIn(replies[..k]) <= VotesIn(replies)
    decreases |replies|
  {
    if k < |replies| {
      VotesOfPrefix(replies[..|replies| - 1], k);
      assert replies[..|replies| - 1][..k] == replies[..k];
    } else {
      assert replies[..k] == replies;
    }
  }

  /** A whole election, given the replies of peers that arrive in time: the node wins, or is a follower again. */
  function ElectionOutcome(n: Node, replies: seq<bool>): Node {
    if n.role == Leader then n
    else
      var n' := StartElection(n);
      if WinsElection(n', 1 + VotesIn(replies)) then BecomeLeader(n') else n'.(role := Follower)
  }

  // ----- replication -----

  /** Appends a client command to a leader's log; anyone else refuses with index -1. */
  function Propose(n: Node, command: string): (Node, int, bool) {
    if n.role != Leader then
      var refused: int := -1;
      (n, refused, false)
    else
      var n' := n.(log := n.log + [Commands.EntryOf(n.currentTerm, command)]).Save();
      var index: int := n'.LastIndex();
      (n', index, true)
  }

  /** The consistency check on the entry that precedes the shipped ones. */
  predicate PrevMatches(n: Node, m: AppendArgs) {
    var localPrev := m.prevLogIndex - n.lastSnapshotIndex;
    if m.prevLogIndex > 0 && localPrev > 0 && |n.log| >= localPrev then n.log[localPrev - 1].term == m.prevLogTerm
    else if m.prevLogIndex > 0 && m.prevLogIndex == n.lastSnapshotIndex then n.lastSnapshotTerm == m.prevLogTerm
    else if m.prevLogIndex > 0 && localPrev > |n.log| then false
    else true
  }

  /** A message of a current leader: adopt its term, saving only when the term is new, and follow it. */
  function ObserveLeader(n: Node, term: nat, leader: int): Node {
    (if term > n.currentTerm then n.(currentTerm := term, votedFor := -1).Save() else n)
    .(role := Follower, leaderId := leader)
  }

  /** Truncates behind the preceding entry when that lies in the local log, then appends; else appends at the tail. */
  function Splice(n: Node, m: AppendArgs): Node {
    if m.entries == [] then n
    else
      var localPrev := m.prevLogIndex - n.lastSnapshotIndex;
      var kept := if localPrev > 0 && |n.log| > localPrev then n.log[..localPrev] else n.log;
      n.(log := kept + m.entries).Save()
  }

  /** Raises the commit index to the leader's, but not beyond the last entry. */
  function FollowCommit(n: Node, leaderCommit: int): Node {
    if leaderCommit > n.commitIdx then
      n.(commitIdx := if leaderCommit < n.LastIndex() then leaderCommit else n.LastIndex())
    else n
  }

  /** Answers an append: the new state, and whether it was accepted. */
  function AppendEntries(n: Node, m: AppendArgs): (Node, bool) {
    if m.term < n.currentTerm then (n, false)
    else
      var n' := ObserveLeader(n, m.term, m.leaderId);
      if m.prevLogIndex > 0 && !PrevMatches(n', m) then (n', false)
      else (FollowCommit(Splice(n', m), m.leaderCommit), true)
  }

  /** The term that a leader believes its follower's preceding entry to have. */
  function PrevTermFor(n: Node, prevLogIndex: int): nat {
    var localPrev := prevLogIndex - n.lastSnapshotIndex;
    if 0 < localPrev <= |n.log| then n.log[localPrev - 1].term
    else if prevLogIndex == n.lastSnapshotIndex && n.lastSnapshotTerm > 0 then n.lastSnapshotTerm
    else 0
  }

  /** The entries from the given global index to the end of the log. */
  function EntriesFrom(n: Node, nextIdx: int): seq<Entry> {
    var localNext := nextIdx - n.lastSnapshotIndex;
    if 0 < localNext <= |n.log| then n.log[localNext - 1..] else []
  }

  /** The append that a leader sends to a follower whose next entry is `nextIdx`. */
  function WindowFrom(n: Node, nextIdx: int): AppendArgs {
    AppendArgs(n.currentTerm, n.id, nextIdx - 1, PrevTermFor(n, nextIdx - 1), n.commitIdx, EntriesFrom(n, nextIdx))
  }

  /** What a leader sends to follower `f` on a heartbeat. */
  function Outbound(n: Node, f: int): Outgoing {
    var nextIdx := Lookup(n.nextIndex, f);
    if nextIdx <= n.lastSnapshotIndex && n.snapshot.Some? then
      SendSnapshot(InstallArgs(n.currentTerm, n.id, n.lastSnapshotIndex, n.lastSnapshotTerm, n.snapshot.value.data))
    else SendAppend(WindowFrom(n, nextIdx))
  }

  /** Follows a later term that a reply names, without saving it. */
  function StepDown(n: Node, term: nat): Node {
    n.(currentTerm := term, votedFor := -1, role := Follower)
  }

  /** Counts the next index of a follower that did not succeed down by one, but not below the snapshot. */
  function CountDown(n: Node, f: int): Node {
    if Lookup(n.nextIndex, f) > n.lastSnapshotIndex + 1 then n.(nextIndex := n.nextIndex[f := n.nextIndex[f] - 1])
    else n
  }

  /** The leader once it has noted that follower `f` holds its log up to the given index. */
  function Noted(n: Node, f: int, index: nat): Node {
    n.(matchIndex := n.matchIndex[f := index], nextIndex := n.nextIndex[f := index + 1])
  }

  /** The leader's reaction to the outcome of an append that it sent in term `sentTerm`. */
  ghost function HandleAppendReply(n: Node, f: int, sentTerm: nat, sentSnapshotIndex: nat, reply: AppendReply): Node {
    match reply
    case NoReply => n
    case Reply(success, newTerm) =>
      if newTerm > sentTerm then StepDown(n, newTerm)
      else if success then
        AdvanceCommit(Noted(n, f, sentSnapshotIndex + |n.log|))
      else CountDown(n, f)
  }

  /** The leader's reaction to the outcome of a snapshot that it sent. */
  function HandleInstallReply(n: Node, f: int, sentTerm: nat, sentSnapshotIndex: nat, reply: InstallReply): Node {
    match reply
    case NoInstallReply => n
    case Installed(newTerm) =>
      if newTerm > sentTerm then StepDown(n, newTerm)
      else Noted(n, f, sentSnapshotIndex)
  }

  // ----- committing -----

  /** The nodes of a configuration, other than the leader, that are known to hold entry `index`. */
  function Holders(n: Node, nodes: set<int>, index: int): set<int> {
    set f | f in nodes && f != n.id && Lookup(n.matchIndex, f) >= index
  }

  /** The leader, which always counts, and the holders are a majority of a configuration. */
  predicate HeldByMajority(n: Node, nodes: set<int>, index: int) {
    1 + |Holders(n, nodes, index)| >= |nodes| / 2 + 1
  }

  predicate CanCommit(n: Node, index: int, term: nat) {
    && term == n.currentTerm
    && HeldByMajority(n, n.config.oldConfig.nodes, index)
    && (n.config.inTransition && n.config.newConfig.Some? ==> HeldByMajority(n, n.config.newConfig.value.nodes, index))
  }

  /** A leader raises its commit index to the majority index when that may be committed. */
  ghost function AdvanceCommit(n: Node): Node {
    if n.role != Leader then n
    else
      var majority := CommitIndex.Majority(n.matchIndex, n.LastIndex());
      if n.commitIdx < majority <= n.LastIndex() && (majority == 0 || CanCommit(n, majority, n.currentTerm)) then
        n.(commitIdx := majority)
      else n
  }

  // ----- applying -----

  /** Replaces the store and saves it. */
  function SetStore(n: Node, data: Data): Node {
    n.(store := data, disk := n.disk.(store := data))
  }

  /** Executes a committed entry. CLEAN also empties the local log and removes the saved state. */
  function Consume(n: Node, e: Entry): Node {
    if e.command == "SET" || e.command == "DELETE" then
      if e.key == "" then n else SetStore(n, Execute(e, n.store))
    else if e.command == "CLEAN" then
      SetStore(n, map[]).(log := []).(disk := Disk(None, n.disk.snapshot, map[]))
    else if e.command == "CONFIG_CHANGE" then HandleConfigChange(n, e.change)
    else n
  }

  /** The node has moved on to its next committed entry, if any. */
  function Fetched(n: Node): Node {
    if n.lastApplied < n.commitIdx then n.(lastApplied := n.lastApplied + 1) else n
  }

  /** The next committed entry, if there is one and the local log holds it. */
  function NextEntry(n: Node): Option<Entry> {
    var local := n.lastApplied + 1 - n.lastSnapshotIndex;
    if n.lastApplied < n.commitIdx && 0 < local <= |n.log| then Some(n.log[local - 1]) else None
  }

  /** Moves on to the next committed entry, if any, and executes it when it is still in the local log. */
  function ApplyNext(n: Node): Node {
    match NextEntry(n)
    case Some(e) => Consume(Fetched(n), e)
    case None => Fetched(n)
  }

  // ----- snapshots and recovery -----

  /** Saves a snapshot, and the term, vote and log that go with it. */
  function SaveWithSnapshot(n: Node, s: Snapshot): Node {
    n.(disk := n.disk.(snapshot := Some(s))).Save()
  }

  /** Snapshots the store at the commit index and drops the entries up to it; false stands for the error. */
  function TakeSnapshot(n: Node): (Node, bool) {
    var local := n.commitIdx - n.lastSnapshotIndex;
    if local <= 0 then (n, true)
    else if local > |n.log| then (n, false)
    else
      var s := Snapshot(n.commitIdx, n.log[local - 1].term, n.store);
      (SaveWithSnapshot(n.(log := n.log[local..],
                           snapshot := Some(s),
                           lastSnapshotIndex := n.commitIdx,
                           lastSnapshotTerm := s.lastIncludedTerm), s), true)
  }

  /** Follows the sender of a snapshot, changing the term without saving it. */
  function ObserveInstaller(n: Node, term: nat, leader: int): Node {
    (if term > n.currentTerm then n.(currentTerm := term, votedFor := -1) else n)
    .(role := Follower, leaderId := leader)
  }

  /** The node's log and indices with a newer snapshot: entries behind the snapshot's index stay. */
  function AdoptSnapshot(n: Node, m: InstallArgs): Node
    requires m.lastIncludedIndex > n.lastSnapshotIndex
  {
    var local := m.lastIncludedIndex - n.lastSnapshotIndex;
    n.(log := if local < |n.log| then n.log[local..] else [],
       commitIdx := m.lastIncludedIndex,
       lastApplied := if n.lastApplied < m.lastIncludedIndex then m.lastIncludedIndex else n.lastApplied,
       snapshot := Some(Snapshot(m.lastIncludedIndex, m.lastIncludedTerm, m.data)),
       lastSnapshotIndex := m.lastIncludedIndex,
       lastSnapshotTerm := m.lastIncludedTerm)
  }

  /** Replaces the store and the log up to a newer snapshot's index by that snapshot. */
  function ReplaceBySnapshot(n: Node, m: InstallArgs): Node
    requires m.lastIncludedIndex > n.lastSnapshotIndex
  {
    SaveWithSnapshot(SetStore(AdoptSnapshot(n, m), m.data), Snapshot(m.lastIncludedIndex, m.lastIncludedTerm, m.data))
  }

  /** Follows a leader that sends a snapshot, and takes the snapshot over if it is newer; false is the error. */
  function InstallSnapshot(n: Node, m: InstallArgs): (Node, bool) {
    if m.term < n.currentTerm then (n, false)
    else
      var n' := ObserveInstaller(n, m.term, m.leaderId);
      if m.lastIncludedIndex <= n'.lastSnapshotIndex then (n', true) else (ReplaceBySnapshot(n', m), true)
  }

  /** The saved term, vote and log, or the defaults when nothing was saved. */
  function LoadState(d: Disk): Saved {
    if d.state.Some? then d.state.value else Saved(0, -1, [])
  }

  /** The node that starts up from a disk in a cluster with the given members besides itself. */
  function Recover(id: int, peers: set<int>, d: Disk): Node {
    var saved := LoadState(d);
    var index: nat := if d.snapshot.Some? then d.snapshot.value.lastIncludedIndex else 0;
    Node(id, peers, saved.term, saved.votedFor, Follower, 0, saved.log, 0, 0,
         AllSet(map[], peers, index + 1),
         AllSet(map[], peers, 0),
         d.snapshot, index,
         if d.snapshot.Some? then d.snapshot.value.lastIncludedTerm else 0,
         ConfigState(Config(peers + {id}, 0), None, false, 0, 0),
         if d.snapshot.Some? && saved.log == [] then d.snapshot.value.data else d.store,
         d)
  }

  // ----- membership -----

  /** Appends a configuration entry and saves. */
  function AppendChange(n: Node, change: ConfigChange): Node {
    n.(log := n.log + [Entry(n.currentTerm, "CONFIG_CHANGE", "", Nil, change)]).Save()
  }

  /** Starts a change to the configuration with the given nodes, replacing any pending one. */
  function EnterTransition(n: Node, nodes: set<int>): Node {
    n.(config := n.config.(newConfig := Some(Config(nodes, n.config.oldConfig.index + 1)),
                           inTransition := true,
                           jointConfigIndex := n.LastIndex() + 1))
  }

  /** Starts adding a server; false stands for the error. */
  function RequestAddServer(n: Node, id: int): (Node, bool) {
    if n.role != Leader || id in n.config.oldConfig.nodes then (n, false)
    else
      var n' := AppendChange(EnterTransition(n, n.config.oldConfig.nodes + {id}), AddServer(id));
      (n'.(peers := n.peers + {id},
           nextIndex := n.nextIndex[id := n'.LastIndex() + 1],
           matchIndex := n.matchIndex[id := 0]), true)
  }

  /** Starts removing a server; false stands for the error. */
  function RequestRemoveServer(n: Node, id: int): (Node, bool) {
    if n.role != Leader || id !in n.config.oldConfig.nodes || id == n.id then (n, false)
    else
      var n' := AppendChange(EnterTransition(n, n.config.oldConfig.nodes - {id}), RemoveServer(id));
      (n'.(nextIndex := n.nextIndex - {id}, matchIndex := n.matchIndex - {id}), true)
  }

  /** Makes the pending configuration the only one; false stands for the error. */
  function FinaliseConfigChange(n: Node): (Node, bool) {
    if !n.config.inTransition then (n, false)
    else
      var n' := n.(config := ConfigState(n.config.Current(), None, false, 0, n.LastIndex()));
      (AppendChange(n', FinalizeConfig), true)
  }

  /** Tracks every node of the current configuration, and no tracked node outside it. */
  function Retrack(n: Node): Node {
    var nodes := n.config.Current().nodes;
    var next := MissingSet(n.nextIndex, nodes, n.LastIndex() + 1);
    var matched := MissingSet(n.matchIndex, nodes, 0);
    n.(nextIndex := next - Others(matched, nodes), matchIndex := matched - Others(matched, nodes))
  }

  /** A committed configuration entry: a leader finalises a pending change, and a final entry resets the tracking. */
  function HandleConfigChange(n: Node, change: ConfigChange): Node {
    match change
    case NoChange => n
    case AddServer(_) => if n.role == Leader then FinaliseConfigChange(n).0 else n
    case RemoveServer(_) => if n.role == Leader then FinaliseConfigChange(n).0 else n
    case FinalizeConfig => Retrack(n)
  }
}
