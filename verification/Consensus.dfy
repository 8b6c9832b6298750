/** One node of the cluster as the object whose handlers update it in place, each proved against its node function. */
module Consensus {
  import opened Types
  import opened Sets
  import opened StateMachine
  import S = NodeSpec
  import Commands
  import CommitIndex
  import opened Storage
  import opened Persistence

  /** Sets every one of `keys` to `v`. */
  method SetAll(m: map<int, int>, keys: set<int>, v: int) returns (r: map<int, int>)
    ensures r == S.AllSet(m, keys, v)
  {
    r := m;
    var todo := keys;
    while todo != {}
      invariant todo <= keys
      invariant r == S.AllSet(m, keys - todo, v)
      decreases todo
    {
      ghost var some := Pick(todo);
      var k :| k in todo;
      r := r[k := v];
      todo := todo - {k};
    }
  }

  /** Sets those of `keys` to `v` that are missing. */
  method SetMissing(m: map<int, int>, keys: set<int>, v: int) returns (r: map<int, int>)
    ensures r == S.MissingSet(m, keys, v)
  {
    r := m;
    var todo := keys;
    while todo != {}
      invariant todo <= keys
      invariant r == S.MissingSet(m, keys - todo, v)
      decreases todo
    {
      ghost var some := Pick(todo);
      var k :| k in todo;
      if k !in r {
        r := r[k := v];
      }
      todo := todo - {k};
    }
  }

  /** Deletes from two maps the keys of the first that are not in `keys`. */
  method DeleteOthers(m: map<int, int>, n: map<int, int>, keys: set<int>) returns (m': map<int, int>, n': map<int, int>)
    ensures m' == m - S.Others(m, keys) && n' == n - S.Others(m, keys)
  {
    m', n' := m, n;
    var todo := m.Keys;
    while todo != {}
      invariant todo <= m.Keys
      invariant m' == m - (m.Keys - todo - keys) && n' == n - (m.Keys - todo - keys)
      decreases todo
    {
      ghost var some := Pick(todo);
      var k :| k in todo;
      if k !in keys {
        m', n' := m' - {k}, n' - {k};
      }
      todo := todo - {k};
    }
  }

  /** Fills the store from its file, or from a snapshot when no log entry follows that. */
  method LoadStore(store: Store, snap: Option<Snapshot>, logIsEmpty: bool)
    modifies store
    ensures store.file == old(store.file) && fresh(store.data)
    ensures store.data.entries == if snap.Some? && logIsEmpty then snap.value.data else store.file
  {
    store.LoadState();
    if snap.Some? && logIsEmpty {
      var data := new Table(snap.value.data);
      store.RestoreSnapshot(data);
    }
  }

  class RaftConsensus {
    const id: int
    const store: Store
    const persister: JSONPersister
    var peers: set<int>
    var currentTerm: nat
    var votedFor: int
    var role: Role
    var leaderId: int
    var log: seq<Entry>
    var commitIdx: nat
    var lastApplied: nat
    var nextIndex: map<int, int>
    var matchIndex: map<int, int>
    var snapshot: Option<Snapshot>
    var lastSnapshotIndex: nat
    var lastSnapshotTerm: nat
    var config: ConfigState

    /** The node's state as a value, with what its persister and its store have saved. */
    ghost function State(): S.Node
      reads this, store, store.data, persister
    {
      S.Node(id, peers, currentTerm, votedFor, role, leaderId, log, commitIdx, lastApplied, nextIndex, matchIndex,
             snapshot, lastSnapshotIndex, lastSnapshotTerm, config, store.data.entries,
             Disk(persister.state, persister.snapshot, store.file))
    }

    /** A pending configuration exists while a change is in progress. */
    ghost predicate Valid()
      reads this
    {
      config.Valid()
    }

    /** Starts a node from what its persister and its store have saved. */
    constructor (id: int, peers: set<int>, store: Store, persister: JSONPersister)
      modifies store
      ensures Valid() && this.store == store && this.persister == persister
      ensures store.file == old(store.file)
      ensures State() == S.Recover(id, peers, Disk(persister.state, persister.snapshot, store.file))
    {
      var term, vote, entries := persister.LoadState();
      var snap := persister.LoadSnapshot();
      LoadStore(store, snap, entries == []);
      var index, snapshotTerm := 0, 0;
      if snap.Some? {
        index, snapshotTerm := snap.value.lastIncludedIndex, snap.value.lastIncludedTerm;
      }
      this.id, this.store, this.persister, this.peers := id, store, persister, peers;
      currentTerm, votedFor, role, leaderId := term, vote, Follower, 0;
      log, commitIdx, lastApplied := entries, 0, 0;
      var next := SetAll(map[], peers, index + 1);
      var matched := SetAll(map[], peers, 0);
      nextIndex, matchIndex := next, matched;
      snapshot, lastSnapshotIndex, lastSnapshotTerm := snap, index, snapshotTerm;
      config := ConfigState(Config(peers + {id}, 0), None, false, 0, 0);
    }

    // ----- voting -----

    method RequestVote(term: nat, candidateId: int, lastLogIndex: int, lastLogTerm: nat)
      returns (granted: bool, replyTerm: nat)
      modifies this, persister
      ensures (State(), granted) == S.RequestVote(old(State()), VoteRequest(term, candidateId, lastLogIndex,
            lastLogTerm))
      ensures replyTerm == currentTerm
    {
      if term > currentTerm {
        currentTerm, votedFor := term, -1;
        persister.SaveState(currentTerm, votedFor, log);
        role := Follower;
      }
      if term < currentTerm {
        return false, currentTerm;
      }
      if votedFor != -1 && votedFor != candidateId {
        return false, currentTerm;
      }
      var localLastIdx := |log|;
      var globalLastIdx := lastSnapshotIndex + localLastIdx;
      var localLastTerm := 0;
      if localLastIdx > 0 {
        localLastTerm := log[localLastIdx - 1].term;
      } else if lastSnapshotTerm > 0 {
        localLastTerm := lastSnapshotTerm;
      }
      var upToDate := lastLogTerm > localLastTerm || (lastLogTerm == localLastTerm && lastLogIndex >= globalLastIdx);
      if !upToDate {
        return false, currentTerm;
      }
      votedFor := candidateId;
      persister.SaveState(currentTerm, votedFor, log);
      return true, currentTerm;
    }

    /**
     The election timer fires. `replies` are the answers that arrive before the vote timeout, at most one from a peer.
    */
    method ElectionTimeout(replies: seq<bool>)
      requires |replies| <= |peers|
      modifies this
      ensures State() == S.ElectionOutcome(old(State()), replies)
    {
      if role != Leader {
        role, currentTerm, votedFor := Candidate, currentTerm + 1, id;
        var won := CollectVotes(replies);
        if won {
          BecomeLeader();
        } else {
          role := Follower;
        }
      }
    }

    /** Counts the node's own vote and the replies, one by one, and stops as soon as there is a majority. */
    method CollectVotes(replies: seq<bool>) returns (won: bool)
      requires |replies| <= |peers|
      ensures won == S.WinsElection(State(), 1 + S.VotesIn(replies))
    {
      var peerCount := |peers|;
      var totalNodes := peerCount + 1;
      var votesGranted := 1;
      var responseCount := 0;
      while responseCount < |replies| && votesGranted <= totalNodes / 2
        invariant 0 <= responseCount <= |replies|
        invariant votesGranted == 1 + S.VotesIn(replies[..responseCount])
      {
        if replies[responseCount] {
          votesGranted := votesGranted + 1;
        }
        responseCount := responseCount + 1;
        assert replies[..responseCount][..responseCount - 1] == replies[..responseCount - 1];
      }
      S.VotesOfPrefix(replies, responseCount);
      assert replies[..|replies|] == replies;
      won := votesGranted > totalNodes / 2;
    }

    method BecomeLeader()
      modifies this
      ensures State() == S.BecomeLeader(old(State()))
    {
      role, leaderId := Leader, id;
      TrackPeers();
    }

    /** Every peer is to be shipped what follows the last entry, and is not known to hold anything. */
    method TrackPeers()
      modifies this`nextIndex, this`matchIndex
      ensures var n := old(State());
        State() == n.(nextIndex := S.AllSet(n.nextIndex, n.peers, n.LastIndex() + 1),
                      matchIndex := S.AllSet(n.matchIndex, n.peers, 0))
    {
      var globalLogLen := lastSnapshotIndex + |log|;
      nextIndex := SetAll(nextIndex, peers, globalLogLen + 1);
      matchIndex := SetAll(matchIndex, peers, 0);
    }

    // ----- replication -----

    method Propose(command: string) returns (index: int, term: nat, isLeader: bool)
      modifies this, persister
      ensures (State(), index, isLeader) == S.Propose(old(State()), command)
      ensures term == currentTerm
    {
      if role != Leader {
        return -1, currentTerm, false;
      }
      var parts := Commands.SplitN(command, ':', 3);
      var key, value := "", Nil;
      if |parts| >= 2 {
        key := parts[1];
      }
      if |parts| >= 3 {
        value := Text(parts[2]);
      }
      log := log + [Entry(currentTerm, parts[0], key, value, NoChange)];
      persister.SaveState(currentTerm, votedFor, log);
      return lastSnapshotIndex + |log|, currentTerm, true;
    }

    method AppendEntries(args: AppendArgs) returns (accepted: bool)
      modifies this, persister
      ensures (State(), accepted) == S.AppendEntries(old(State()), args)
    {
      if args.term < currentTerm {
        return false;
      }
      ObserveLeader(args.term, args.leaderId);
      var logValid := CheckPrev(args);
      if args.prevLogIndex > 0 && !logValid {
        return false;
      }
      Splice(args);
      FollowCommit(args.leaderCommit);
      return true;
    }

    method ObserveLeader(term: nat, leader: int)
      modifies this, persister
      ensures State() == S.ObserveLeader(old(State()), term, leader)
    {
      if term > currentTerm {
        currentTerm, votedFor := term, -1;
        persister.SaveState(currentTerm, votedFor, log);
      }
      role, leaderId := Follower, leader;
    }

    method CheckPrev(args: AppendArgs) returns (logValid: bool)
      ensures logValid == S.PrevMatches(State(), args)
    {
      var logLen := |log|;
      logValid := true;
      var localPrevIdx := args.prevLogIndex - lastSnapshotIndex;
      if args.prevLogIndex > 0 && localPrevIdx > 0 && logLen >= localPrevIdx {
        logValid := log[localPrevIdx - 1].term == args.prevLogTerm;
      } else if args.prevLogIndex > 0 && args.prevLogIndex == lastSnapshotIndex {
        logValid := lastSnapshotTerm == args.prevLogTerm;
      } else if args.prevLogIndex > 0 && localPrevIdx > logLen {
        logValid := false;
      }
    }

    method Splice(args: AppendArgs)
      modifies this, persister
      ensures State() == S.Splice(old(State()), args)
    {
      if |args.entries| > 0 {
        var logLen := |log|;
        var localPrevIdx := args.prevLogIndex - lastSnapshotIndex;
        if localPrevIdx > 0 && logLen > localPrevIdx {
          log := log[..localPrevIdx];
        }
        log := log + args.entries;
        persister.SaveState(currentTerm, votedFor, log);
      }
    }

    method FollowCommit(leaderCommit: int)
      modifies this
      ensures State() == S.FollowCommit(old(State()), leaderCommit)
    {
      if leaderCommit > commitIdx {
        var globalLastIdx := lastSnapshotIndex + |log|;
        if leaderCommit < globalLastIdx {
          commitIdx := leaderCommit;
        } else {
          commitIdx := globalLastIdx;
        }
      }
    }

    /** What a heartbeat sends to follower `f`: the latest snapshot if it is too far behind, else the end of the log. */
    method Heartbeat(f: int) returns (out: Outgoing)
      ensures out == S.Outbound(State(), f)
    {
      var nextIdx := S.Lookup(nextIndex, f);
      if nextIdx <= lastSnapshotIndex && snapshot.Some? {
        return SendSnapshot(InstallArgs(currentTerm, id, lastSnapshotIndex, lastSnapshotTerm, snapshot.value.data));
      }
      var prevLogIdx := nextIdx - 1;
      var prevLogTerm := 0;
      var localPrev := prevLogIdx - lastSnapshotIndex;
      if localPrev > 0 && localPrev <= |log| {
        prevLogTerm := log[localPrev - 1].term;
      } else if prevLogIdx == lastSnapshotIndex && lastSnapshotTerm > 0 {
        prevLogTerm := lastSnapshotTerm;
      }
      var entries := [];
      var localNext := nextIdx - lastSnapshotIndex;
      if localNext > 0 && localNext <= |log| {
        entries := log[localNext - 1..];
      }
      return SendAppend(AppendArgs(currentTerm, id, prevLogIdx, prevLogTerm, commitIdx, entries));
    }

    /** Follows a later term that a reply names, without saving it. */
    method StepDown(term: nat)
      modifies this`currentTerm, this`votedFor, this`role
      ensures State() == S.StepDown(old(State()), term)
    {
      currentTerm, votedFor := term, -1;
      role := Follower;
    }

    /** Notes that follower `f` holds the log up to the given index, and is to be shipped what follows. */
    method NoteHeld(f: int, index: nat)
      modifies this`nextIndex, this`matchIndex
      ensures State() == S.Noted(old(State()), f, index)
    {
      matchIndex := matchIndex[f := index];
      nextIndex := nextIndex[f := index + 1];
    }

    /** The outcome of an append that was sent in `sentTerm`, when the snapshot index was `sentSnapshotIndex`. */
    method OnAppendReply(f: int, sentTerm: nat, sentSnapshotIndex: nat, reply: AppendReply)
      requires Valid()
      modifies this
      ensures State() == S.HandleAppendReply(old(State()), f, sentTerm, sentSnapshotIndex, reply)
    {
      if reply.NoReply? {
        return;
      }
      if reply.term > sentTerm {
        StepDown(reply.term);
        return;
      }
      if reply.success {
        OnAccepted(f, sentSnapshotIndex + |log|);
      } else {
        OnRefused(f);
      }
    }

    /** Notes what an accepting follower holds, and commits what it can. */
    method OnAccepted(f: int, index: nat)
      requires Valid()
      modifies this
      ensures State() == S.AdvanceCommit(S.Noted(old(State()), f, index))
    {
      NoteHeld(f, index);
      CalculateCommitIndex();
    }

    /** Counts the next index of a follower that did not succeed down by one. */
    method OnRefused(f: int)
      modifies this`nextIndex
      ensures State() == S.CountDown(old(State()), f)
    {
      if S.Lookup(nextIndex, f) > lastSnapshotIndex + 1 {
        nextIndex := nextIndex[f := nextIndex[f] - 1];
      }
    }

    /** The outcome of a snapshot that was sent in `sentTerm`. */
    method OnInstallReply(f: int, sentTerm: nat, sentSnapshotIndex: nat, reply: InstallReply)
      modifies this
      ensures State() == S.HandleInstallReply(old(State()), f, sentTerm, sentSnapshotIndex, reply)
    {
      if reply.NoInstallReply? {
        return;
      }
      if reply.term > sentTerm {
        StepDown(reply.term);
        return;
      }
      NoteHeld(f, sentSnapshotIndex);
    }

    // ----- committing -----

    /** Counts the leader and the nodes of a configuration that are known to hold the entry. */
    method CountReplicas(nodes: set<int>, index: int) returns (replicas: nat)
      ensures replicas == 1 + |S.Holders(State(), nodes, index)|
    {
      replicas := 1;
      var todo := nodes;
      while todo != {}
        invariant todo <= nodes
        invariant replicas == 1 + |S.Holders(State(), nodes - todo, index)|
        decreases todo
      {
        ghost var some := Pick(todo);
        var followerId :| followerId in todo;
        ghost var done := nodes - todo;
        todo := todo - {followerId};
        assert nodes - todo == done + {followerId};
        if followerId != id && S.Lookup(matchIndex, followerId) >= index {
          replicas := replicas + 1;
          assert S.Holders(State(), done + {followerId}, index) == S.Holders(State(), done, index) + {followerId};
        } else {
          assert S.Holders(State(), done + {followerId}, index) == S.Holders(State(), done, index);
        }
      }
      assert nodes - todo == nodes;
    }

    method CanCommit(index: int, term: nat) returns (ok: bool)
      requires Valid()
      ensures ok == S.CanCommit(State(), index, term)
    {
      if term != currentTerm {
        return false;
      }
      var oldQuorum := |config.oldConfig.nodes| / 2 + 1;
      var oldReplicas := CountReplicas(config.oldConfig.nodes, index);
      if !config.inTransition {
        return oldReplicas >= oldQuorum;
      }
      var newQuorum := |config.newConfig.value.nodes| / 2 + 1;
      var newReplicas := CountReplicas(config.newConfig.value.nodes, index);
      return oldReplicas >= oldQuorum && newReplicas >= newQuorum;
    }

    method CalculateCommitIndex()
      requires Valid()
      modifies this`commitIdx
      ensures State() == S.AdvanceCommit(old(State()))
    {
      if role != Leader {
        return;
      }
      var globalLogLen := lastSnapshotIndex + |log|;
      var majorityIndex := CommitIndex.MajorityOf(matchIndex, globalLogLen);
      if majorityIndex > commitIdx && majorityIndex <= globalLogLen {
        var ok := majorityIndex == 0;
        if !ok {
          ok := CanCommit(majorityIndex, currentTerm);
        }
        if ok {
          commitIdx := majorityIndex;
        }
      }
    }

    // ----- applying -----

    /** Moves on to the next committed entry, if there is one, and fetches it unless the local log does not hold it. */
    method FetchNext() returns (entry: Option<Entry>)
      modifies this`lastApplied
      ensures State() == S.Fetched(old(State())) && entry == S.NextEntry(old(State()))
    {
      entry := None;
      if lastApplied < commitIdx {
        lastApplied := lastApplied + 1;
        var localIdx := lastApplied - lastSnapshotIndex;
        if localIdx > 0 && localIdx <= |log| {
          entry := Some(log[localIdx - 1]);
        }
      }
    }

    /** Takes the next committed entry, if there is one, and executes it. */
    method ApplyNext()
      requires Valid()
      modifies this, store, store.data, persister
      ensures Valid() && State() == S.ApplyNext(old(State()))
    {
      var entry := FetchNext();
      if entry.Some? {
        Consume(entry.value);
      }
    }

    /** Executes a committed entry on the store. */
    method Consume(entry: Entry)
      requires Valid()
      modifies this, store, store.data, persister
      ensures Valid() && State() == S.Consume(old(State()), entry)
    {
      if entry.command == "SET" {
        if entry.key == "" {
          return;
        }
        store.Set(entry.key, entry.value);
        store.SaveState();
      } else if entry.command == "DELETE" {
        if entry.key == "" {
          return;
        }
        store.Delete(entry.key);
        store.SaveState();
      } else if entry.command == "CLEAN" {
        persister.ClearState();
        store.ClearAll();
        store.SaveState();
        log := [];
      } else if entry.command == "CONFIG_CHANGE" && entry.change != NoChange {
        HandleConfigChange(entry.change);
      }
    }

    // ----- snapshots -----

    method TakeSnapshot() returns (ok: bool)
      modifies this, persister
      ensures (State(), ok) == S.TakeSnapshot(old(State()))
    {
      if commitIdx <= lastSnapshotIndex {
        return true;
      }
      var snapshotIndex := commitIdx;
      var localIdx := snapshotIndex - lastSnapshotIndex;
      if localIdx <= 0 || localIdx > |log| {
        return false;
      }
      var snapshotTerm := log[localIdx - 1].term;
      var storeData := store.CreateSnapshot();
      var s := Snapshot(snapshotIndex, snapshotTerm, storeData.entries);
      persister.SaveSnapshot(s);
      if localIdx > 0 && localIdx <= |log| {
        log := log[localIdx..];
      }
      SetSnapshot(s);
      persister.SaveState(currentTerm, votedFor, log);
      return true;
    }

    method InstallSnapshot(args: InstallArgs) returns (ok: bool, replyTerm: nat)
      modifies this, store, persister
      ensures (State(), ok) == S.InstallSnapshot(old(State()), args)
      ensures replyTerm == currentTerm
    {
      if args.term < currentTerm {
        return false, currentTerm;
      }
      if args.term > currentTerm {
        currentTerm, votedFor := args.term, -1;
      }
      role, leaderId := Follower, args.leaderId;
      if args.lastIncludedIndex > lastSnapshotIndex {
        ReplaceBySnapshot(args);
      }
      return true, currentTerm;
    }

    /** Takes over a snapshot that is newer than the last one. */
    method ReplaceBySnapshot(args: InstallArgs)
      requires args.lastIncludedIndex > lastSnapshotIndex
      modifies this, store, persister
      ensures State() == S.ReplaceBySnapshot(old(State()), args)
    {
      AdoptSnapshot(args);
      RestoreStore(args.data);
      SaveWithSnapshot(Snapshot(args.lastIncludedIndex, args.lastIncludedTerm, args.data));
    }

    /** Drops that many entries from the front of the log, or all if there are no more. */
    method KeepBehind(localIdx: nat)
      modifies this`log
      ensures State() == old(State()).(log := if localIdx < |old(log)| then old(log)[localIdx..] else [])
    {
      if localIdx < |log| {
        log := log[localIdx..];
      } else {
        log := [];
      }
    }

    /** Moves log and indices to a snapshot that is newer than the last one. */
    method AdoptSnapshot(args: InstallArgs)
      requires args.lastIncludedIndex > lastSnapshotIndex
      modifies this
      ensures State() == S.AdoptSnapshot(old(State()), args)
    {
      KeepBehind(args.lastIncludedIndex - lastSnapshotIndex);
      commitIdx := args.lastIncludedIndex;
      SetSnapshot(Snapshot(args.lastIncludedIndex, args.lastIncludedTerm, args.data));
      if lastApplied < args.lastIncludedIndex {
        lastApplied := args.lastIncludedIndex;
      }
    }

    /** Makes a snapshot the latest one. */
    method SetSnapshot(s: Snapshot)
      modifies this`snapshot, this`lastSnapshotIndex, this`lastSnapshotTerm
      ensures State() == old(State()).(snapshot := Some(s),
                                       lastSnapshotIndex := s.lastIncludedIndex,
                                       lastSnapshotTerm := s.lastIncludedTerm)
    {
      snapshot, lastSnapshotIndex, lastSnapshotTerm := Some(s), s.lastIncludedIndex, s.lastIncludedTerm;
    }

    /** Saves a snapshot, and the term, vote and log that go with it. */
    method SaveWithSnapshot(s: Snapshot)
      modifies persister
      ensures State() == S.SaveWithSnapshot(old(State()), s)
    {
      persister.SaveSnapshot(s);
      persister.SaveState(currentTerm, votedFor, log);
    }

    /** Replaces the store by a snapshot's data and saves it. */
    method RestoreStore(data: Data)
      modifies store
      ensures fresh(store.data) && State() == S.SetStore(old(State()), data)
    {
      var received := new Table(data);
      store.RestoreSnapshot(received);
      store.SaveState();
    }

    // ----- membership -----

    /** Appends a configuration entry and saves. */
    method AppendChange(change: ConfigChange)
      modifies this`log, persister
      ensures State() == S.AppendChange(old(State()), change)
    {
      log := log + [Entry(currentTerm, "CONFIG_CHANGE", "", Nil, change)];
      persister.SaveState(currentTerm, votedFor, log);
    }

    method RequestAddServer(nodeId: int) returns (ok: bool)
      modifies this, persister
      ensures (State(), ok) == S.RequestAddServer(old(State()), nodeId)
      ensures old(Valid()) ==> Valid()
    {
      if role != Leader {
        return false;
      }
      if nodeId in config.oldConfig.nodes {
        return false;
      }
      config := config.(newConfig := Some(Config(config.oldConfig.nodes + {nodeId}, config.oldConfig.index + 1)),
                        inTransition := true,
                        jointConfigIndex := lastSnapshotIndex + |log| + 1);
      AppendChange(AddServer(nodeId));
      TrackPeer(nodeId);
      return true;
    }

    /** Makes a new server a peer that is caught up from the end of the log. */
    method TrackPeer(nodeId: int)
      modifies this`peers, this`nextIndex, this`matchIndex
      ensures var n := old(State());
        State() == n.(peers := n.peers + {nodeId},
                      nextIndex := n.nextIndex[nodeId := n.LastIndex() + 1],
                      matchIndex := n.matchIndex[nodeId := 0])
    {
      peers := peers + {nodeId};
      var globalLogLen := lastSnapshotIndex + |log|;
      nextIndex := nextIndex[nodeId := globalLogLen + 1];
      matchIndex := matchIndex[nodeId := 0];
    }

    method RequestRemoveServer(nodeId: int) returns (ok: bool)
      modifies this, persister
      ensures (State(), ok) == S.RequestRemoveServer(old(State()), nodeId)
      ensures old(Valid()) ==> Valid()
    {
      if role != Leader {
        return false;
      }
      if nodeId !in config.oldConfig.nodes {
        return false;
      }
      if nodeId == id {
        return false;
      }
      config := config.(newConfig := Some(Config(config.oldConfig.nodes - {nodeId}, config.oldConfig.index + 1)),
                        inTransition := true,
                        jointConfigIndex := lastSnapshotIndex + |log| + 1);
      AppendChange(RemoveServer(nodeId));
      nextIndex := nextIndex - {nodeId};
      matchIndex := matchIndex - {nodeId};
      return true;
    }

    method FinaliseConfigChange() returns (ok: bool)
      requires Valid()
      modifies this, persister
      ensures Valid() && (State(), ok) == S.FinaliseConfigChange(old(State()))
    {
      if !config.inTransition {
        return false;
      }
      config := ConfigState(config.newConfig.value, None, false, 0, lastSnapshotIndex + |log|);
      AppendChange(FinalizeConfig);
      return true;
    }

    /** Tracks every node of the current configuration, and no tracked node outside it. */
    method Retrack()
      modifies this`nextIndex, this`matchIndex
      ensures State() == S.Retrack(old(State()))
    {
      var nodes := config.Current().nodes;
      var globalLogLen := lastSnapshotIndex + |log|;
      var next := SetMissing(nextIndex, nodes, globalLogLen + 1);
      var matched := SetMissing(matchIndex, nodes, 0);
      matchIndex, nextIndex := DeleteOthers(matched, next, nodes);
    }

    method HandleConfigChange(change: ConfigChange)
      requires Valid()
      modifies this, persister
      ensures Valid() && State() == S.HandleConfigChange(old(State()), change)
    {
      match change
      case NoChange =>
      case FinalizeConfig =>
        Retrack();
      case _ =>
        if role == Leader {
          var finalised := FinaliseConfigChange();
        }
    }
  }
}
