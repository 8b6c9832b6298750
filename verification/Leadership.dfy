/** Whom nodes take for their leader: in every run one that has won the term in which they have followed it. */
module Leadership {
  import opened Types
  import opened NodeSpec
  import opened Cluster
  import opened CrashRuns
  import HandlerLaws
  import C = Crashes

  /** Node `id` has won term `t` before state `x`. */
  ghost predicate HasWon(states: seq<System>, events: seq<Event>, x: nat, id: int, t: nat) {
    exists z: nat :: z < x && WonTerm(states, events, z, id, t)
  }

  /** The leader that a node names has won a term not beyond the node's; zero is what it names when it starts. */
  ghost predicate Knows(states: seq<System>, events: seq<Event>, x: nat, n: Node) {
    n.leaderId == 0 || exists t: nat :: t <= n.currentTerm && HasWon(states, events, x, n.leaderId, t)
  }

  ghost predicate AllKnown(states: seq<System>, events: seq<Event>, x: nat)
    requires x < |states|
  {
    && (forall i :: i in states[x].nodes ==> Knows(states, events, x, states[x].nodes[i]))
    && forall m :: m in states[x].announcements ==> HasWon(states, events, x, m.leaderId, m.term)
  }

  /** Who is taken for the leader after an action: the sender of a current append, the winner itself, or nobody. */
  lemma NamesAfter(n: Node, a: C.Action)
    requires Tame(n, a)
    ensures var n' := C.NodeAfter(n, a);
      match a
      case Appended(m) =>
        if m.term < n.currentTerm then n' == n else n'.leaderId == m.leaderId && n'.currentTerm == m.term
      case Won => n'.leaderId == n.id && n'.currentTerm == n.currentTerm
      case Crashed => n'.leaderId == 0
      case _ => n'.leaderId == n.leaderId && n'.currentTerm >= n.currentTerm
  {
    match a
    case Appended(m) => HandlerLaws.AppendFollows(n, m);
    case VoteAsked(m) => HandlerLaws.VoteFollows(n, m);
    case AppendAnswered(f, reply) => AnswerNames(n, f, reply);
    case Applied => ApplyNames(n);
    case _ =>
  }

  lemma AnswerNames(n: Node, f: int, reply: AppendReply)
    ensures var n' := HandleAppendReply(n, f, n.currentTerm, n.lastSnapshotIndex, reply);
      n'.leaderId == n.leaderId && n'.currentTerm >= n.currentTerm
  {
  }

  lemma ApplyNames(n: Node)
    ensures ApplyNext(n).leaderId == n.leaderId && ApplyNext(n).currentTerm == n.currentTerm
  {
  }

  lemma StillWon(states: seq<System>, events: seq<Event>, k: nat, id: int, t: nat)
    requires HasWon(states, events, k, id, t)
    ensures HasWon(states, events, k + 1, id, t)
  {
    var z: nat :| z < k && WonTerm(states, events, z, id, t);
    assert z < k + 1 && WonTerm(states, events, z, id, t);
  }

  lemma StillKnows(states: seq<System>, events: seq<Event>, k: nat, n: Node, n': Node)
    requires Knows(states, events, k, n) && n'.leaderId == n.leaderId && n'.currentTerm >= n.currentTerm
    ensures Knows(states, events, k + 1, n')
  {
    if n.leaderId != 0 {
      var t: nat :| t <= n.currentTerm && HasWon(states, events, k, n.leaderId, t);
      StillWon(states, events, k, n.leaderId, t);
    }
  }

  /** An append arrives from a leader, in its term, or from one that has announced itself. */
  lemma SenderLeads(w: World, s: System, e: Event, i: int, m: AppendArgs)
    requires AllSound(w, s) && Fires(w, s, e) && i in w.ids && ActionOn(s, e, i) == Some(C.Appended(m))
    ensures m in s.announcements
            || (&& m.leaderId in s.nodes && s.nodes[m.leaderId].role == Leader
                && m.term == s.nodes[m.leaderId].currentTerm)
  {
    if e.Exchange? {
      assert m == Outbound(s.nodes[e.i], i).args;
      assert s.nodes[e.i].role == Leader && s.nodes[e.i].id == e.i;
    }
  }

  /** The sender of an append that arrives has won the append's term. */
  lemma SenderHasWon(w: World, states: seq<System>, events: seq<Event>, k: nat, i: int, m: AppendArgs)
    requires WellFormed(w) && IsCrashRun(w, states, events) && k < |events| && AllKnown(states, events, k)
    requires AllSound(w, states[k]) && Fires(w, states[k], events[k]) && i in w.ids
    requires ActionOn(states[k], events[k], i) == Some(C.Appended(m))
    ensures HasWon(states, events, k, m.leaderId, m.term)
  {
    SenderLeads(w, states[k], events[k], i, m);
    if m !in states[k].announcements {
      var z := LeaderHasWon(w, states, events, k, m.leaderId);
    }
  }

  /** Whoever has an append arrive then names its sender, or nothing has changed. */
  lemma FollowerKnows(w: World, states: seq<System>, events: seq<Event>, k: nat, i: int, m: AppendArgs, n': Node)
    requires WellFormed(w) && IsCrashRun(w, states, events) && k < |events| && AllKnown(states, events, k)
    requires AllSound(w, states[k]) && Fires(w, states[k], events[k]) && i in w.ids
    requires ActionOn(states[k], events[k], i) == Some(C.Appended(m))
    requires if m.term < states[k].nodes[i].currentTerm then n' == states[k].nodes[i]
             else n'.leaderId == m.leaderId && n'.currentTerm == m.term
    ensures Knows(states, events, k + 1, n')
  {
    if m.term < states[k].nodes[i].currentTerm {
      StillKnows(states, events, k, states[k].nodes[i], n');
    } else {
      SenderHasWon(w, states, events, k, i, m);
      StillWon(states, events, k, m.leaderId, m.term);
    }
  }

  /** The same of a step of the cluster: the node names as before, or itself after a win, or the sender of an append. */
  lemma StepNames(w: World, s: System, e: Event, i: int)
    requires AllSound(w, s) && Fires(w, s, e) && i in w.ids
    ensures i in Outcome(w, s, e).nodes
    ensures var n := s.nodes[i];
      var n' := Outcome(w, s, e).nodes[i];
      match ActionOn(s, e, i)
      case Some(Appended(m)) =>
        if m.term < n.currentTerm then n' == n else n'.leaderId == m.leaderId && n'.currentTerm == m.term
      case _ =>
        || (n'.leaderId == n.leaderId && n'.currentTerm >= n.currentTerm)
        || n'.leaderId == 0
        || (e.Win? && e.i == i && n'.leaderId == i && n'.currentTerm == n.currentTerm)
  {
    EventActs(w, s, e, i);
    if ActionOn(s, e, i).Some? {
      EventIsTame(w, s, e, i);
      NamesAfter(s.nodes[i], ActionOn(s, e, i).value);
      assert ActionOn(s, e, i) == Some(C.Won) ==> e.Win? && e.i == i;
    }
  }

  lemma WinnerKnows(w: World, states: seq<System>, events: seq<Event>, k: nat, i: int, n': Node)
    requires IsCrashRun(w, states, events) && k < |events| && i in states[k].nodes
    requires events[k].Win? && events[k].i == i
    requires n'.leaderId == i && n'.currentTerm == states[k].nodes[i].currentTerm
    ensures Knows(states, events, k + 1, n')
  {
    assert WonTerm(states, events, k, i, n'.currentTerm);
    assert HasWon(states, events, k + 1, i, n'.currentTerm);
  }

  lemma NodeKnows(w: World, states: seq<System>, events: seq<Event>, k: nat, i: int)
    requires WellFormed(w) && IsCrashRun(w, states, events) && k < |events| && AllKnown(states, events, k)
    requires AllSound(w, states[k]) && CrashNext(w, states[k], events[k], states[k + 1]) && i in w.ids
    ensures i in states[k + 1].nodes && Knows(states, events, k + 1, states[k + 1].nodes[i])
  {
    var n := states[k].nodes[i];
    StepNames(w, states[k], events[k], i);
    var n' := states[k + 1].nodes[i];
    match ActionOn(states[k], events[k], i)
    case Some(Appended(m)) => FollowerKnows(w, states, events, k, i, m, n');
    case _ =>
      if n'.leaderId == n.leaderId && n'.currentTerm >= n.currentTerm {
        StillKnows(states, events, k, n, n');
      } else if n'.leaderId != 0 {
        WinnerKnows(w, states, events, k, i, n');
      }
  }

  lemma AnnouncersKnown(w: World, states: seq<System>, events: seq<Event>, k: nat, m: AppendArgs)
    requires WellFormed(w) && IsCrashRun(w, states, events) && k < |events| && AllKnown(states, events, k)
    requires AllSound(w, states[k]) && CrashNext(w, states[k], events[k], states[k + 1])
    requires m in states[k + 1].announcements
    ensures HasWon(states, events, k + 1, m.leaderId, m.term)
  {
    if m in states[k].announcements {
      StillWon(states, events, k, m.leaderId, m.term);
    } else {
      assert WonTerm(states, events, k, m.leaderId, m.term);
    }
  }

  lemma {:induction false} RunKnows(w: World, states: seq<System>, events: seq<Event>, x: nat)
    requires WellFormed(w) && IsCrashRun(w, states, events) && x < |states|
    ensures AllKnown(states, events, x)
    decreases x
  {
    if x == 0 {
    } else {
      var k := x - 1;
      RunKnows(w, states, events, k);
      SoundRun(w, states, events, k);
      SoundRun(w, states, events, x);
      assert CrashNext(w, states[k], events[k], states[k + 1]);
      forall i | i in states[x].nodes ensures Knows(states, events, x, states[x].nodes[i]) {
        NodeKnows(w, states, events, k, i);
      }
      forall m | m in states[x].announcements ensures HasWon(states, events, x, m.leaderId, m.term) {
        AnnouncersKnown(w, states, events, k, m);
      }
    }
  }

  /**
   In every state of every run, with crashes or without, the leader that a node names has won a term at some earlier
   point, and not one beyond the node's term.
  */
  lemma NamedLeaderHasWon(w: World, states: seq<System>, events: seq<Event>, x: nat, i: int) returns (t: nat, z: nat)
    requires WellFormed(w) && IsCrashRun(w, states, events) && HasNode(states, x, i)
    requires states[x].nodes[i].leaderId != 0
    ensures t <= states[x].nodes[i].currentTerm
    ensures z < x && WonTerm(states, events, z, states[x].nodes[i].leaderId, t)
  {
    RunKnows(w, states, events, x);
    var n := states[x].nodes[i];
    assert Knows(states, events, x, n);
    t :| t <= n.currentTerm && HasWon(states, events, x, n.leaderId, t);
    z :| z < x && WonTerm(states, events, z, n.leaderId, t);
  }
}
