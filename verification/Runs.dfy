/** Every run has a history: the invariants hold initially and every event keeps them. */
module Runs {
  import opened Types
  import opened StateMachine
  import opened NodeSpec
  import opened Cluster
  import opened History
  import opened Growth
  import opened Elections
  import opened Replication
  import opened Application

  const BLANK: History := History(map[], map[], map[], map[], map[])

  lemma InitialNodeOk(w: World, i: int)
    requires WellFormed(w) && i in w.ids
    ensures NodeOk(w, BLANK, {}, Recover(i, w.ids - {i}, BootDisk(w)))
  {
    var n := Recover(i, w.ids - {i}, BootDisk(w));
    assert n.log[0..0] == [] && n.log[..0] == [];
    forall key: string ensures SettledBy([], key) || SameAt(map[], map[], key) { }
  }

  lemma InitialInv(w: World, s: System)
    requires WellFormed(w) && Initial(w, s)
    ensures Inv(w, s, BLANK)
  {
    forall i | i in w.ids ensures NodeOk(w, BLANK, s.requests, s.nodes[i]) {
      InitialNodeOk(w, i);
    }
  }

  /** What a node has applied the most it has applied at some time. */
  ghost predicate TallyOk(s': System, h: History, h': History) {
    forall i :: i in s'.nodes ==> Applied(h', i) == Applied(h, i) || Applied(h', i) == s'.nodes[i].lastApplied
  }

  /** A win records the length of the log that the winner was elected with. */
  ghost predicate WinOk(s: System, e: Event, h': History) {
    e.Win? && e.i in s.nodes ==>
      && s.nodes[e.i].currentTerm in h'.leaders
      && h'.leaders[s.nodes[e.i].currentTerm].electedLen == |s.nodes[e.i].log|
  }

  lemma ElectionEvent(w: World, s: System, h: History, e: Event) returns (h': History)
    requires WellFormed(w) && w.prefix != [] && Inv(w, s, h) && Enabled(w, s, e)
    requires e.Timeout? || e.AskVotes? || e.CastVote? || e.Win? || e.Lose?
    ensures Inv(w, Do(w, s, e), h') && Grows(h, h') && h'.applied == h.applied && WinOk(s, e, h')
  {
    h' := h;
    GrowsSame(h);
    match e
    case Timeout(i) => h' := TimeoutStep(w, s, h, i);
    case AskVotes(i) => AskVotesStep(w, s, h, i);
    case CastVote(j, m) =>
      if RequestVote(s.nodes[j], m).1 { h' := GrantStep(w, s, h, j, m); } else { RefuseStep(w, s, h, j, m); }
    case Win(i, voters) => h' := WinStep(w, s, h, i, voters);
    case Lose(i) => LoseStep(w, s, h, i);
  }

  lemma ApplyTally(w: World, s: System, h: History, i: int)
    requires i in s.nodes && s.nodes[i].id == i
    ensures TallyOk(Put(s, i, ApplyNext(s.nodes[i])), h, ApplyHistory(h, s.nodes[i]))
  {
  }

  lemma ReplicationEvent(w: World, s: System, h: History, e: Event) returns (h': History)
    requires WellFormed(w) && w.prefix != [] && Inv(w, s, h) && Enabled(w, s, e)
    requires e.Announced? || e.Exchange? || e.Submit?
    ensures Inv(w, Do(w, s, e), h') && Grows(h, h') && h'.applied == h.applied
  {
    match e
    case Announced(j, m) => h' := AnnouncedStep(w, s, h, j, m);
    case Exchange(i, j, replied) =>
      if replied { h' := ExchangeStep(w, s, h, i, j); } else { h' := DeliverStep(w, s, h, i, j); }
    case Submit(i, command) => h' := SubmitStep(w, s, h, i, command);
  }

  lemma ApplyingEvent(w: World, s: System, h: History, e: Event) returns (h': History)
    requires WellFormed(w) && Inv(w, s, h) && Enabled(w, s, e) && (e.Apply? || e.Restart?)
    ensures Inv(w, Do(w, s, e), h') && Grows(h, h') && TallyOk(Do(w, s, e), h, h')
  {
    match e
    case Apply(i) =>
      h' := ApplyStep(w, s, h, i);
      ApplyTally(w, s, h, i);
    case Restart(i) =>
      h' := h;
      GrowsSame(h);
      RestartStep(w, s, h, i);
  }

  /** Every event keeps the invariants, with a history that only grows. */
  lemma StepKeepsInv(w: World, s: System, h: History, e: Event) returns (h': History)
    requires WellFormed(w) && w.prefix != [] && Inv(w, s, h) && Enabled(w, s, e)
    ensures Inv(w, Do(w, s, e), h') && Grows(h, h') && TallyOk(Do(w, s, e), h, h') && WinOk(s, e, h')
  {
    if e.Timeout? || e.AskVotes? || e.CastVote? || e.Win? || e.Lose? {
      h' := ElectionEvent(w, s, h, e);
    } else if e.Apply? || e.Restart? {
      h' := ApplyingEvent(w, s, h, e);
    } else {
      h' := ReplicationEvent(w, s, h, e);
    }
  }

  // ----- histories of runs -----

  /** From one state of a run to the next, the history grows accordingly. */
  ghost predicate HistoryStep(s: System, e: Event, s': System, h: History, h': History) {
    Grows(h, h') && TallyOk(s', h, h') && WinOk(s, e, h')
  }

  /** One history for each state of a run, each growing out of the one before. */
  ghost predicate AreHistories(w: World, states: seq<System>, events: seq<Event>, hs: seq<History>) {
    && |hs| == |states| == |events| + 1
    && hs[0] == BLANK
    && (forall k {:trigger Inv(w, states[k], hs[k])} :: 0 <= k < |states| ==> Inv(w, states[k], hs[k]))
    && forall k {:trigger HistoryStep(states[k], events[k], states[k + 1], hs[k], hs[k + 1])} ::
         0 <= k < |events| ==> HistoryStep(states[k], events[k], states[k + 1], hs[k], hs[k + 1])
  }

  lemma ExtendHistories(w: World, states: seq<System>, events: seq<Event>, hs: seq<History>, e: Event, s': System,
        h': History)
    requires AreHistories(w, states, events, hs)
    requires Inv(w, s', h') && HistoryStep(states[|events|], e, s', hs[|events|], h')
    ensures AreHistories(w, states + [s'], events + [e], hs + [h'])
  {
    var states', events', hs' := states + [s'], events + [e], hs + [h'];
    forall k | 0 <= k < |states'| ensures Inv(w, states'[k], hs'[k]) {
      if k < |states| { assert Inv(w, states[k], hs[k]); }
    }
    forall k | 0 <= k < |events'| ensures HistoryStep(states'[k], events'[k], states'[k + 1], hs'[k], hs'[k + 1]) {
      if k < |events| { assert HistoryStep(states[k], events[k], states[k + 1], hs[k], hs[k + 1]); }
    }
  }

  lemma RunPrefix(w: World, states: seq<System>, events: seq<Event>)
    requires IsRun(w, states, events) && events != []
    ensures IsRun(w, states[..|events|], events[..|events| - 1])
    ensures Next(w, states[|events| - 1], events[|events| - 1], states[|events|])
    ensures states == states[..|events|] + [states[|events|]]
    ensures events == events[..|events| - 1] + [events[|events| - 1]]
  {
    var n := |events| - 1;
    assert Next(w, states[n], events[n], states[n + 1]);
    forall k | 0 <= k < n ensures Next(w, states[..n + 1][k], events[..n][k], states[..n + 1][k + 1]) {
      assert Next(w, states[k], events[k], states[k + 1]);
    }
  }

  lemma {:induction false} RunHasHistories(w: World, states: seq<System>, events: seq<Event>) returns (hs: seq<History>)
    requires WellFormed(w) && w.prefix != [] && IsRun(w, states, events)
    ensures AreHistories(w, states, events, hs)
    decreases |events|
  {
    if events == [] {
      InitialInv(w, states[0]);
      hs := [BLANK];
    } else {
      var n := |events| - 1;
      RunPrefix(w, states, events);
      var front := RunHasHistories(w, states[..n + 1], events[..n]);
      assert Inv(w, states[..n + 1][n], front[n]);
      var h := StepKeepsInv(w, states[n], front[n], events[n]);
      hs := front + [h];
      ExtendHistories(w, states[..n + 1], events[..n], front, events[n], states[n + 1], h);
    }
  }

  lemma {:induction false} HistoriesGrow(w: World, states: seq<System>, events: seq<Event>, hs: seq<History>,
        x: nat, y: nat)
    requires AreHistories(w, states, events, hs) && x <= y < |hs|
    ensures Grows(hs[x], hs[y])
    decreases y
  {
    if x < y {
      HistoriesGrow(w, states, events, hs, x, y - 1);
      var k := y - 1;
      assert HistoryStep(states[k], events[k], states[k + 1], hs[k], hs[k + 1]);
      GrowsTransitively(hs[x], hs[k], hs[k + 1]);
    } else {
      GrowsSame(hs[x]);
    }
  }
}
