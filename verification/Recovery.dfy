/** Restarting by replay, and catching up by snapshot, both lead to the store of a single run through the log. */
module Recovery {
  import opened Types
  import opened StateMachine
  import opened NodeSpec

  // ----- replaying a log -----

  predicate Within(rounds: seq<nat>, lo: nat, hi: nat) {
    forall j :: 0 <= j < |rounds| ==> lo <= rounds[j] <= hi
  }

  /** The store after replaying the log from index `s` to each of the given indices in turn. */
  function Replayed(full: seq<Entry>, s: nat, rounds: seq<nat>, data: Data): Data
    requires Within(rounds, s, |full|)
  {
    if rounds == [] then data
    else
      var r := rounds[|rounds| - 1];
      Fold(full[s..r], Replayed(full, s, rounds[..|rounds| - 1], data))
  }

  /** A part of a log settles no key that the whole does not. */
  lemma SettledByPart(full: seq<Entry>, s: nat, r: nat, n: nat, key: string)
    requires s <= r <= n <= |full| && SettledBy(full[s..r], key)
    ensures SettledBy(full[s..n], key)
  {
    var p :| 0 <= p < |full[s..r]| && Settles(full[s..r][p], key);
    assert Settles(full[s..n][p], key);
  }

  /** Replays change only what one more, longer replay settles. */
  lemma {:induction false} ReplaysStayClose(full: seq<Entry>, s: nat, rounds: seq<nat>, n: nat, data: Data, base: Data)
    requires Within(rounds, s, n)
    requires s <= n <= |full| && SameUnlessSettled(full[s..n], data, base)
    ensures SameUnlessSettled(full[s..n], Replayed(full, s, rounds, data), base)
    decreases |rounds|
  {
    if rounds == [] {
    } else {
      var front, r := rounds[..|rounds| - 1], rounds[|rounds| - 1];
      ReplaysStayClose(full, s, front, n, data, base);
      var before := Replayed(full, s, front, data);
      forall key: string | !SettledBy(full[s..n], key) ensures SameAt(Fold(full[s..r], before), base, key) {
        if SettledBy(full[s..r], key) { SettledByPart(full, s, r, n, key); }
        UnsettledIsKept(full[s..r], before, key);
      }
    }
  }

  /** The store on disk at a crash: all entries up to `k` applied once, then any number of replays cut short. */
  lemma StoreAtCrash(full: seq<Entry>, s: nat, k: nat, rounds: seq<nat>, n: nat)
    requires s <= k <= n <= |full| && Within(rounds, s, n)
    ensures SameUnlessSettled(full[s..n], Replayed(full, s, rounds, Fold(full[..k], map[])), Fold(full[..s], map[]))
  {
    var base := Fold(full[..s], map[]);
    assert full[..k] == full[..s] + full[s..k];
    FoldConcat(full[..s], full[s..k], map[]);
    forall key: string | !SettledBy(full[s..n], key) ensures SameAt(Fold(full[s..k], base), base, key) {
      if SettledBy(full[s..k], key) { SettledByPart(full, s, k, n, key); }
      UnsettledIsKept(full[s..k], base, key);
    }
    ReplaysStayClose(full, s, rounds, n, Fold(full[..k], map[]), base);
  }

  /**
   Recovery by replay converges: the store reached after `k` commands, at or past the snapshot index `s`, and after
   any number of recoveries that were cut short, becomes by one more replay from `s` to `n` the store of applying
   1 to n once. The commands are any mix of SET, DELETE, CLEAN and ones that do nothing.
  */
  lemma RecoveryConverges(full: seq<Entry>, s: nat, k: nat, rounds: seq<nat>, n: nat)
    requires s <= k <= n <= |full| && Within(rounds, s, n)
    ensures Fold(full[s..n], Replayed(full, s, rounds, Fold(full[..k], map[]))) == Fold(full[..n], map[])
  {
    StoreAtCrash(full, s, k, rounds, n);
    FoldConverges(full[s..n], Replayed(full, s, rounds, Fold(full[..k], map[])), Fold(full[..s], map[]));
    assert full[..n] == full[..s] + full[s..n];
    FoldConcat(full[..s], full[s..n], map[]);
  }

  // ----- a node that applies all it has committed -----

  /** The node's log is the part of the full log behind its snapshot. */
  predicate Holds(n: Node, full: seq<Entry>) {
    n.lastSnapshotIndex <= |full| && n.log == full[n.lastSnapshotIndex..]
  }

  predicate WithoutClean(log: seq<Entry>) {
    forall e :: e in log ==> e.command != "CLEAN"
  }

  /**
   The store of a node that consumes these entries: a CLEAN empties its log as well, so that nothing behind it is
   executed.
  */
  function Consumed(part: seq<Entry>, data: Data): Data {
    if WithoutClean(part) then Fold(part, data) else map[]
  }

  /** Where the first entry that the node is still to apply stands, behind its snapshot. */
  function Frontier(n: Node): nat {
    if n.lastApplied < n.lastSnapshotIndex then n.lastSnapshotIndex else n.lastApplied
  }

  lemma ConsumeKeeps(n: Node, e: Entry)
    requires n.role != Leader
    ensures var n' := Consume(n, e);
      && n'.role == n.role && n'.commitIdx == n.commitIdx && n'.lastSnapshotIndex == n.lastSnapshotIndex
      && n'.lastApplied == n.lastApplied && n'.log == (if e.command == "CLEAN" then [] else n.log)
      && n'.store == Execute(e, n.store)
  {
  }

  lemma ApplyNextKeeps(n: Node)
    requires n.role != Leader
    ensures var n' := ApplyNext(n);
      && n'.role == n.role && n'.commitIdx == n.commitIdx && n'.lastSnapshotIndex == n.lastSnapshotIndex
      && n'.lastApplied == (if n.lastApplied < n.commitIdx then n.lastApplied + 1 else n.lastApplied)
      && match NextEntry(n)
         case None => n'.log == n.log && n'.store == n.store
         case Some(e) => n'.log == (if e.command == "CLEAN" then [] else n.log) && n'.store == Execute(e, n.store)
  {
    if NextEntry(n).Some? { ConsumeKeeps(Fetched(n), NextEntry(n).value); }
  }

  /** The consumer at work until everything committed is applied. */
  function ApplyRounds(n: Node, rounds: nat): Node {
    if rounds == 0 then n else ApplyNext(ApplyRounds(n, rounds - 1))
  }

  /** The node has come so far from `lo` that it has executed these entries, up to a CLEAN among them. */
  ghost predicate Executed(n: Node, log: seq<Entry>, part: seq<Entry>, data: Data) {
    n.log == (if WithoutClean(part) then log else []) && n.store == Consumed(part, data)
  }

  lemma ExecutedOneMore(n: Node, full: seq<Entry>, log: seq<Entry>, lo: nat, data: Data)
    requires n.role != Leader && n.lastSnapshotIndex <= n.lastApplied < n.commitIdx <= |full| && lo <= n.lastApplied
    requires n.lastSnapshotIndex <= |full| && log == full[n.lastSnapshotIndex..]
    requires Executed(n, log, full[lo..n.lastApplied], data)
    ensures Executed(ApplyNext(n), log, full[lo..n.lastApplied + 1], data)
  {
    var part, next := full[lo..n.lastApplied], full[lo..n.lastApplied + 1];
    ApplyNextKeeps(n);
    assert next == part + [full[n.lastApplied]];
    if WithoutClean(part) {
      assert NextEntry(n) == Some(full[n.lastApplied]);
      assert next[..|next| - 1] == part;
    } else {
      assert NextEntry(n) == None;
    }
  }

  lemma NextExecutes(n: Node, full: seq<Entry>, log: seq<Entry>, lo: nat, data: Data)
    requires n.role != Leader && n.lastApplied < n.commitIdx <= |full| && lo <= Frontier(n) <= |full|
    requires log == full[n.lastSnapshotIndex..] && Executed(n, log, full[lo..Frontier(n)], data)
    ensures Frontier(n) <= Frontier(ApplyNext(n)) <= |full|
    ensures Executed(ApplyNext(n), log, full[lo..Frontier(ApplyNext(n))], data)
  {
    ApplyNextKeeps(n);
    if n.lastApplied >= n.lastSnapshotIndex {
      ExecutedOneMore(n, full, log, lo, data);
    }
  }

  /** The node has gone through some rounds and executed, once each, the entries behind its frontier. */
  ghost predicate Progressed(n: Node, n': Node, full: seq<Entry>, rounds: nat) {
    && n'.role == n.role && n'.commitIdx == n.commitIdx
    && n'.lastSnapshotIndex == n.lastSnapshotIndex && n'.lastApplied == n.lastApplied + rounds
    && Frontier(n) <= Frontier(n') <= |full|
    && Executed(n', n.log, full[Frontier(n)..Frontier(n')], n.store)
  }

  lemma {:induction false} RoundsFold(n: Node, full: seq<Entry>, rounds: nat)
    requires Holds(n, full) && n.role != Leader && n.lastApplied + rounds <= n.commitIdx <= |full|
    ensures Progressed(n, ApplyRounds(n, rounds), full, rounds)
    decreases rounds
  {
    if rounds == 0 {
      assert full[Frontier(n)..Frontier(n)] == [];
    } else {
      RoundsFold(n, full, rounds - 1);
      var before := ApplyRounds(n, rounds - 1);
      ApplyNextKeeps(before);
      NextExecutes(before, full, n.log, Frontier(n), n.store);
    }
  }

  /** A node that applies everything it has committed. */
  function ApplyAll(n: Node): Node {
    if n.lastApplied < n.commitIdx then ApplyRounds(n, n.commitIdx - n.lastApplied) else n
  }

  lemma AllFolds(n: Node, full: seq<Entry>)
    requires Holds(n, full) && n.role != Leader && Frontier(n) <= n.commitIdx <= |full|
    ensures ApplyAll(n).lastApplied == n.commitIdx
    ensures ApplyAll(n).store == Consumed(full[Frontier(n)..n.commitIdx], n.store)
  {
    RoundsFold(n, full, n.commitIdx - n.lastApplied);
  }

  // ----- restarting -----

  /** The disk holds the log behind the snapshot, and the snapshot holds the store of the entries that it replaced. */
  ghost predicate DiskHolds(d: Disk, full: seq<Entry>, s: nat) {
    && s <= |full| && d.state.Some? && d.state.value.log == full[s..]
    && match d.snapshot
       case None => s == 0
       case Some(snap) => snap.lastIncludedIndex == s && snap.data == Fold(full[..s], map[])
  }

  /** Consuming the entries behind `s` ends right: no CLEAN is among them, or a replay from the start leaves nothing. */
  predicate ReplaysRight(full: seq<Entry>, s: nat, c: nat)
    requires s <= c <= |full|
  {
    WithoutClean(full[s..c]) || Fold(full[..c], map[]) == map[]
  }

  /**
   A node that crashed with entries 1 to k in its store, perhaps in the middle of later recoveries, and restarts, hears
   of commit index c and applies everything, has the store of applying 1 to c once if and only if there is no CLEAN
   behind the snapshot, or nothing is left in that store anyway: behind a CLEAN the node has no log to replay.
  */
  lemma RestartReplays(id: int, peers: set<int>, d: Disk, full: seq<Entry>, s: nat, k: nat, rounds: seq<nat>, c: nat)
    requires DiskHolds(d, full, s) && s <= k <= c <= |full| && Within(rounds, s, c)
    requires d.store == Replayed(full, s, rounds, Fold(full[..k], map[]))
    ensures var n := ApplyAll(FollowCommit(Recover(id, peers, d), c));
      && (WithoutClean(full[s..c]) ==> n.store == Fold(full[..c], map[]))
      && (n.store == Fold(full[..c], map[]) <==> ReplaysRight(full, s, c))
  {
    var n := FollowCommit(Recover(id, peers, d), c);
    assert n.lastSnapshotIndex == s && n.log == full[s..] && n.commitIdx == c;
    AllFolds(n, full);
    if full[s..] == [] { assert full[s..c] == []; }
    RecoveryConverges(full, s, k, rounds, c);
  }

  // ----- catching up by snapshot -----

  /** What a snapshot holds: the store at the last applied entry, under the index and term of the commit index. */
  lemma TakenSnapshot(l: Node, full: seq<Entry>)
    requires Holds(l, full) && l.lastSnapshotIndex < l.commitIdx <= |full| && l.lastApplied <= |full|
    requires l.store == Fold(full[..l.lastApplied], map[])
    ensures TakeSnapshot(l).1 && Holds(TakeSnapshot(l).0, full)
    ensures TakeSnapshot(l).0.snapshot
            == Some(Snapshot(l.commitIdx, full[l.commitIdx - 1].term, Fold(full[..l.lastApplied], map[])))
    ensures var l' := TakeSnapshot(l).0;
      && l'.lastSnapshotIndex == l.commitIdx && l'.lastSnapshotTerm == full[l.commitIdx - 1].term
      && (DiskHolds(l'.disk, full, l.commitIdx)
          <==> Fold(full[..l.lastApplied], map[]) == Fold(full[..l.commitIdx], map[]))
  {
    assert TakeSnapshot(l).0.log == full[l.commitIdx..];
  }

  /** The installation is of a current leader and brings something new. */
  predicate Newer(f: Node, m: InstallArgs) {
    m.term >= f.currentTerm && m.lastIncludedIndex > f.lastSnapshotIndex
  }

  /** Entries behind an installed snapshot survive, each at its global index, and nothing else does. */
  lemma SurvivorsKeepIndex(f: Node, m: InstallArgs, g: nat)
    requires Newer(f, m) && g > m.lastIncludedIndex
    ensures var f' := InstallSnapshot(f, m).0;
      && f'.lastSnapshotIndex == m.lastIncludedIndex
      && (g <= f.LastIndex() <==> g <= f'.LastIndex())
      && (g <= f.LastIndex() ==>
            f'.log[g - 1 - f'.lastSnapshotIndex] == f.log[g - 1 - f.lastSnapshotIndex])
  {
  }

  lemma InstalledNode(f: Node, m: InstallArgs)
    requires Newer(f, m)
    ensures var f' := InstallSnapshot(f, m).0;
      && f'.role == Follower && f'.id == f.id && f'.currentTerm == m.term
      && f'.store == m.data && f'.disk.store == m.data
      && f'.commitIdx == f'.lastSnapshotIndex == m.lastIncludedIndex && f'.lastSnapshotTerm == m.lastIncludedTerm
      && Frontier(f') == (if f.lastApplied < m.lastIncludedIndex then m.lastIncludedIndex else f.lastApplied)
      && (f.LastIndex() <= m.lastIncludedIndex ==> f'.log == [])
  {
  }

  /** A follower that already held the log still holds all of it behind the snapshot. */
  lemma InstalledHolds(f: Node, m: InstallArgs, full: seq<Entry>)
    requires Newer(f, m) && Holds(f, full) && m.lastIncludedIndex <= |full|
    ensures Holds(InstallSnapshot(f, m).0, full)
  {
    var local := m.lastIncludedIndex - f.lastSnapshotIndex;
    assert f.log[local..] == full[m.lastIncludedIndex..];
  }

  /** What the entries from `s` to `p` had done to a key is done again behind `p`, or was nothing. */
  predicate Redone(full: seq<Entry>, s: nat, p: nat, c: nat, key: string)
    requires s <= p <= c <= |full|
  {
    SettledBy(full[s..p], key) ==>
      SettledBy(full[p..c], key) || SameAt(Fold(full[..s], map[]), Fold(full[..p], map[]), key)
  }

  /** Skipping entries from `s` to `p` makes no difference at `c` exactly when all that they had done is redone. */
  lemma SkippingIsSeen(full: seq<Entry>, s: nat, p: nat, c: nat)
    requires s <= p <= c <= |full|
    ensures Fold(full[p..c], Fold(full[..s], map[])) == Fold(full[..c], map[])
            <==> forall key :: Redone(full, s, p, c, key)
  {
    var a, b := Fold(full[..s], map[]), Fold(full[..p], map[]);
    assert full[..c] == full[..p] + full[p..c] && full[..p] == full[..s] + full[s..p];
    FoldConcat(full[..p], full[p..c], map[]);
    FoldConcat(full[..s], full[s..p], map[]);
    FoldsAgree(full[p..c], a, b);
    forall key: string | !SettledBy(full[s..p], key) ensures SameAt(a, b, key) {
      UnsettledIsKept(full[s..p], a, key);
    }
    if SameUnlessSettled(full[p..c], a, b) {
      forall key: string ensures Redone(full, s, p, c, key) { }
    } else if forall key :: Redone(full, s, p, c, key) {
      forall key: string ensures SettledBy(full[p..c], key) || SameAt(a, b, key) {
        assert Redone(full, s, p, c, key);
      }
      assert false;
    }
  }

  /**
   Going on from `p` with the store of the entries up to `s` ends right: what was skipped is redone or, when a CLEAN
   empties the node's log on the way, a replay from the start leaves nothing either.
  */
  ghost predicate ReplaysBehind(full: seq<Entry>, s: nat, p: nat, c: nat)
    requires s <= p <= c <= |full|
  {
    if WithoutClean(full[p..c]) then forall key :: Redone(full, s, p, c, key) else Fold(full[..c], map[]) == map[]
  }

  /**
   What a node comes to that has the snapshot and applies the entries behind it: the store of the snapshot's entries,
   and then of those from its frontier on. What it had applied behind the snapshot is applied no second time, though
   the snapshot has undone it; so this is the store of a replay exactly when all of that is redone. If the node had
   applied nothing behind the snapshot, there is nothing to redo.
  */
  lemma AppliedBehindSnapshot(n: Node, full: seq<Entry>, c: nat)
    requires Holds(n, full) && n.role != Leader && Frontier(n) <= c <= |full|
    requires n.commitIdx == c && n.store == Fold(full[..n.lastSnapshotIndex], map[])
    ensures ApplyAll(n).store == Consumed(full[Frontier(n)..c], Fold(full[..n.lastSnapshotIndex], map[]))
    ensures ApplyAll(n).store == Fold(full[..c], map[])
            <==> ReplaysBehind(full, n.lastSnapshotIndex, Frontier(n), c)
    ensures n.lastApplied <= n.lastSnapshotIndex ==>
              (ReplaysBehind(full, n.lastSnapshotIndex, Frontier(n), c)
               <==> ReplaysRight(full, n.lastSnapshotIndex, c))
  {
    var s := n.lastSnapshotIndex;
    AllFolds(n, full);
    SkippingIsSeen(full, s, Frontier(n), c);
    if n.lastApplied <= s {
      assert full[s..s] == [];
      forall key ensures Redone(full, s, s, c, key) { }
    }
  }

  /** A leader's snapshot that is right, and what it sends of it to a follower that is behind it. */
  lemma ShippedSnapshot(l: Node, f: int, full: seq<Entry>)
    requires Holds(l, full) && l.lastSnapshotIndex < l.commitIdx <= |full| && l.lastApplied == l.commitIdx
    requires l.store == Fold(full[..l.commitIdx], map[]) && Lookup(l.nextIndex, f) <= l.commitIdx
    ensures Outbound(TakeSnapshot(l).0, f)
            == SendSnapshot(InstallArgs(l.currentTerm, l.id, l.commitIdx, full[l.commitIdx - 1].term,
                                        Fold(full[..l.commitIdx], map[])))
  {
    TakenSnapshot(l, full);
  }

  /**
   Snapshot catch-up equals replay, for a follower that holds the log behind the snapshot: it installs the leader's
   snapshot, hears of commit index c and applies the rest. It ends with the store of applying 1 to c, exactly unless it
   meets a CLEAN and something would be left behind that.
  */
  lemma CatchUpBySurvivors(l: Node, f: Node, full: seq<Entry>, c: nat)
    requires Holds(l, full) && l.lastSnapshotIndex < l.commitIdx <= c <= |full| && l.lastApplied == l.commitIdx
    requires l.store == Fold(full[..l.commitIdx], map[]) && Lookup(l.nextIndex, f.id) <= l.commitIdx
    requires Holds(f, full) && f.lastApplied <= f.commitIdx <= l.commitIdx && f.lastSnapshotIndex < l.commitIdx
    requires f.currentTerm <= l.currentTerm
    ensures Outbound(TakeSnapshot(l).0, f.id).SendSnapshot?
    ensures var m := Outbound(TakeSnapshot(l).0, f.id).install;
      ApplyAll(FollowCommit(InstallSnapshot(f, m).0, c)).store == Fold(full[..c], map[])
      <==> ReplaysRight(full, l.commitIdx, c)
  {
    ShippedSnapshot(l, f.id, full);
    var m := Outbound(TakeSnapshot(l).0, f.id).install;
    InstalledNode(f, m);
    InstalledHolds(f, m, full);
    AppliedBehindSnapshot(FollowCommit(InstallSnapshot(f, m).0, c), full, c);
  }

  /** What a leader ships from the first entry behind its snapshot. */
  lemma FirstWindow(l: Node)
    ensures var m := WindowFrom(l, l.lastSnapshotIndex + 1);
      && m.term == l.currentTerm && m.prevLogIndex == l.lastSnapshotIndex && m.prevLogTerm == l.lastSnapshotTerm
      && m.leaderCommit == l.commitIdx && m.entries == l.log
  {
    assert EntriesFrom(l, l.lastSnapshotIndex + 1) == l.log;
  }

  /** A node with no entries behind its snapshot takes what starts there as its log. */
  lemma EmptyLogFills(n: Node, m: AppendArgs)
    requires n.log == [] && n.currentTerm <= m.term && n.commitIdx <= m.leaderCommit
    requires n.lastSnapshotIndex == m.prevLogIndex && n.lastSnapshotTerm == m.prevLogTerm
    requires m.leaderCommit <= m.prevLogIndex + |m.entries|
    ensures var (n', accepted) := AppendEntries(n, m);
      && accepted && n'.log == m.entries && n'.role == Follower && n'.commitIdx == m.leaderCommit
      && n'.store == n.store && n'.lastApplied == n.lastApplied && n'.lastSnapshotIndex == n.lastSnapshotIndex
  {
    assert [] + m.entries == m.entries;
    assert Splice(ObserveLeader(n, m.term, m.leaderId), m).log == m.entries;
  }

  /**
   Snapshot catch-up equals replay, for a follower with nothing behind the snapshot: it installs the snapshot, accepts
   the append with which the leader, by then perhaps with a longer log `full'`, goes on, and applies everything. Again
   this is the store of a replay, exactly unless a CLEAN is met behind which something would be left.
  */
  lemma CatchUpByAppend(l: Node, f: Node, full: seq<Entry>, later: Node, full': seq<Entry>)
    requires Holds(l, full) && l.lastSnapshotIndex < l.commitIdx <= |full| && l.lastApplied == l.commitIdx
    requires l.store == Fold(full[..l.commitIdx], map[]) && Lookup(l.nextIndex, f.id) <= l.commitIdx
    requires f.lastApplied <= f.commitIdx <= l.commitIdx && f.lastSnapshotIndex < l.commitIdx
    requires f.LastIndex() <= l.commitIdx && f.currentTerm <= l.currentTerm <= later.currentTerm
    requires Holds(later, full') && full <= full'
    requires later.lastSnapshotIndex == l.commitIdx <= later.commitIdx <= |full'|
    requires later.lastSnapshotTerm == full[l.commitIdx - 1].term
    ensures Outbound(TakeSnapshot(l).0, f.id).SendSnapshot?
    ensures var m := Outbound(TakeSnapshot(l).0, f.id).install;
      var (f', accepted) := AppendEntries(InstallSnapshot(f, m).0, WindowFrom(later, later.lastSnapshotIndex + 1));
      && accepted && Holds(f', full')
      && (ApplyAll(f').store == Fold(full'[..later.commitIdx], map[])
          <==> ReplaysRight(full', l.commitIdx, later.commitIdx))
  {
    ShippedSnapshot(l, f.id, full);
    var m := Outbound(TakeSnapshot(l).0, f.id).install;
    InstalledNode(f, m);
    var f1 := InstallSnapshot(f, m).0;
    var window := WindowFrom(later, later.lastSnapshotIndex + 1);
    FirstWindow(later);
    EmptyLogFills(f1, window);
    assert full'[..l.commitIdx] == full[..l.commitIdx];
    AppliedBehindSnapshot(AppendEntries(f1, window).0, full', later.commitIdx);
  }

  /** A snapshot taken while a committed SET is still to be applied loses it. */
  lemma LaggingSnapshotLoses(l: Node, full: seq<Entry>)
    requires Holds(l, full) && l.lastSnapshotIndex < l.commitIdx <= |full| && l.commitIdx == l.lastApplied + 1
    requires l.store == Fold(full[..l.lastApplied], map[])
    requires var e := full[l.lastApplied]; e.command == "SET" && e.key != "" && e.key !in l.store
    ensures TakeSnapshot(l).0.snapshot.Some?
    ensures TakeSnapshot(l).0.snapshot.value.data != Fold(full[..l.commitIdx], map[])
  {
    TakenSnapshot(l, full);
    FoldNext(full, l.lastApplied, map[]);
  }
}
