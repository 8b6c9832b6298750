/** What one accepted append does to a follower's log, and what the same append does when it arrives again. */
module AppendLaws {
  import opened Types
  import opened NodeSpec

  /** The position of the preceding entry in the local log, counted from one. */
  function LocalPrev(n: Node, m: AppendArgs): int {
    m.prevLogIndex - n.lastSnapshotIndex
  }

  /** The append ships a part of the sender's log `full`, with the true preceding term. */
  predicate ShipsFrom(full: seq<Entry>, m: AppendArgs) {
    && 0 < m.prevLogIndex && m.prevLogIndex + |m.entries| <= |full|
    && m.prevLogTerm == full[m.prevLogIndex - 1].term
    && m.entries == full[m.prevLogIndex..m.prevLogIndex + |m.entries|]
  }

  lemma WindowAfter(full: seq<Entry>, lo: nat, mid: nat, hi: nat)
    requires lo <= mid <= hi <= |full|
    ensures full[lo..hi] == full[lo..mid] + full[mid..hi]
  {
  }

  /**
   Alignment: a follower that holds the sender's entries up to the preceding one, and accepts, holds them up to the
   last shipped one; and behind that it holds nothing else, if anything was shipped.
  */
  lemma AcceptedAppendAligns(n: Node, m: AppendArgs, full: seq<Entry>)
    requires ShipsFrom(full, m) && AppendEntries(n, m).1 && LocalPrev(n, m) > 0
    requires LocalPrev(n, m) <= |n.log| ==> n.log[..LocalPrev(n, m)] == full[n.lastSnapshotIndex..m.prevLogIndex]
    ensures var n' := AppendEntries(n, m).0;
      && LocalPrev(n, m) + |m.entries| <= |n'.log|
      && n'.log[..LocalPrev(n, m) + |m.entries|] == full[n.lastSnapshotIndex..m.prevLogIndex + |m.entries|]
      && (m.entries != [] ==> |n'.log| == LocalPrev(n, m) + |m.entries|)
      && (m.entries == [] ==> n'.log == n.log)
  {
    AcceptedLog(n, m);
    WindowAfter(full, n.lastSnapshotIndex, m.prevLogIndex, m.prevLogIndex + |m.entries|);
  }

  lemma AcceptedLog(n: Node, m: AppendArgs)
    requires AppendEntries(n, m).1
    ensures LocalPrev(n, m) > 0 ==> LocalPrev(n, m) <= |n.log| && n.log[LocalPrev(n, m) - 1].term == m.prevLogTerm
    ensures var n' := AppendEntries(n, m).0;
      && n'.currentTerm == m.term && n'.lastSnapshotIndex == n.lastSnapshotIndex
      && n'.lastSnapshotTerm == n.lastSnapshotTerm
      && n'.log == if m.entries == [] then n.log
                   else if LocalPrev(n, m) > 0 then n.log[..LocalPrev(n, m)] + m.entries
                   else n.log + m.entries
  {
  }

  /** The state after an accepted append, part by part. */
  lemma AcceptedState(n: Node, m: AppendArgs)
    requires AppendEntries(n, m).1
    ensures AppendEntries(n, m).0 == FollowCommit(Splice(ObserveLeader(n, m.term, m.leaderId), m), m.leaderCommit)
  {
  }

  lemma AcceptedAgain(n: Node, m: AppendArgs)
    requires AppendEntries(n, m).1
    ensures AppendEntries(AppendEntries(n, m).0, m).1
  {
    AcceptedLog(n, m);
  }

  lemma SpliceAgain(n: Node, m: AppendArgs)
    requires m.entries != [] && 0 < LocalPrev(n, m) <= |n.log|
    requires n.log[LocalPrev(n, m)..] == m.entries && n.disk.state == Some(Saved(n.currentTerm, n.votedFor, n.log))
    ensures Splice(n, m) == n
  {
    assert n.log[..LocalPrev(n, m)] + m.entries == n.log;
  }

  /**
   Idempotence, exactly: the same append, accepted once, changes nothing when it is delivered again if and only if it
   is empty or its preceding entry lies in the local log.
  */
  lemma RepeatedAppend(n: Node, m: AppendArgs)
    requires AppendEntries(n, m).1
    ensures AppendEntries(AppendEntries(n, m).0, m).0 == AppendEntries(n, m).0
            <==> m.entries == [] || LocalPrev(n, m) > 0
  {
    var n' := AppendEntries(n, m).0;
    AcceptedLog(n, m);
    AcceptedAgain(n, m);
    AcceptedState(n', m);
    if m.entries != [] {
      AcceptedLog(n', m);
      if LocalPrev(n, m) > 0 {
        assert n'.log[LocalPrev(n, m)..] == m.entries;
        SpliceAgain(n', m);
      } else {
        assert |AppendEntries(n', m).0.log| > |n'.log|;
      }
    }
  }

  /**
   A late append: when a follower that already holds what is shipped, and perhaps more, gets and accepts the append
   once more, it keeps its log if and only if nothing was shipped or nothing was behind it. So an exchange has to be
   one step: an append that was overtaken by a longer one takes acknowledged entries away.
  */
  lemma LateAppend(n: Node, m: AppendArgs)
    requires AppendEntries(n, m).1 && LocalPrev(n, m) > 0
    requires LocalPrev(n, m) + |m.entries| <= |n.log|
    requires n.log[LocalPrev(n, m)..LocalPrev(n, m) + |m.entries|] == m.entries
    ensures AppendEntries(n, m).0.log == n.log <==> m.entries == [] || LocalPrev(n, m) + |m.entries| == |n.log|
    ensures AppendEntries(n, m).0.log <= n.log
  {
    AcceptedLog(n, m);
    var k := LocalPrev(n, m);
    assert n.log[..k] + m.entries == n.log[..k + |m.entries|];
  }

  /**
   A window from the very start of the sender's log is appended without a check: the follower then holds the sender's
   log if and only if its own was empty.
  */
  lemma AppendFromStart(n: Node, m: AppendArgs, full: seq<Entry>)
    requires n.lastSnapshotIndex == 0 && m.prevLogIndex == 0 && m.entries == full && full != []
          && m.term >= n.currentTerm
    ensures AppendEntries(n, m).1
    ensures AppendEntries(n, m).0.log == full <==> n.log == []
  {
    AcceptedLog(n, m);
  }
}
