/**
 Runs from any first log, in which a node may also stop and recover when its disk is behind its memory. What holds of
 them holds of the atomic runs, which are among them.
*/
module CrashRuns {
  import opened Types
  import opened NodeSpec
  import opened Cluster
  import Commands
  import C = Crashes

  /** As `Enabled`, but any node may restart. */
  ghost predicate Fires(w: World, s: System, e: Event) {
    if e.Restart? then s.nodes.Keys == w.ids && e.i in w.ids else Enabled(w, s, e)
  }

  ghost function Outcome(w: World, s: System, e: Event): System
    requires Fires(w, s, e)
  {
    if e.Restart? then Put(s, e.i, Recover(e.i, w.ids - {e.i}, s.nodes[e.i].disk)) else Do(w, s, e)
  }

  ghost predicate CrashNext(w: World, s: System, e: Event, s': System) {
    Fires(w, s, e) && s' == Outcome(w, s, e)
  }

  ghost predicate IsCrashRun(w: World, states: seq<System>, events: seq<Event>) {
    && |states| == |events| + 1
    && Initial(w, states[0])
    && forall k {:trigger CrashNext(w, states[k], events[k], states[k + 1])} ::
         0 <= k < |events| ==> CrashNext(w, states[k], events[k], states[k + 1])
  }

  lemma StepIsCrashStep(w: World, s: System, e: Event, s': System)
    requires Next(w, s, e, s')
    ensures CrashNext(w, s, e, s')
  {
  }

  lemma RunIsCrashRun(w: World, states: seq<System>, events: seq<Event>)
    requires IsRun(w, states, events)
    ensures IsCrashRun(w, states, events)
  {
    forall k | 0 <= k < |events| ensures CrashNext(w, states[k], events[k], states[k + 1]) {
      assert Next(w, states[k], events[k], states[k + 1]);
      StepIsCrashStep(w, states[k], events[k], states[k + 1]);
    }
  }

  lemma CrashStep(w: World, states: seq<System>, events: seq<Event>, k: nat)
    requires IsCrashRun(w, states, events) && k < |events|
    ensures Fires(w, states[k], events[k]) && states[k + 1] == Outcome(w, states[k], events[k])
  {
    assert CrashNext(w, states[k], events[k], states[k + 1]);
  }

  /** A run with one more step. */
  lemma CrashRunExtends(w: World, states: seq<System>, events: seq<Event>, e: Event, s': System)
    requires IsCrashRun(w, states, events) && CrashNext(w, states[|events|], e, s')
    ensures IsCrashRun(w, states + [s'], events + [e])
  {
    var states', events' := states + [s'], events + [e];
    forall k | 0 <= k < |events'| ensures CrashNext(w, states'[k], events'[k], states'[k + 1]) {
      if k < |events| { assert CrashNext(w, states[k], events[k], states[k + 1]); }
    }
  }

  // ----- what an event does to a node -----

  /** What happens to node `k` in an event, if anything does. */
  ghost function ActionOn(s: System, e: Event, k: int): Option<C.Action>
    requires e.Exchange? ==> e.i in s.nodes && e.j in s.nodes
  {
    match e
    case Timeout(i) => if k == i then Some(C.TimedOut) else None
    case AskVotes(_) => None
    case CastVote(j, m) => if k == j then Some(C.VoteAsked(m)) else None
    case Win(i, _) => if k == i then Some(C.Won) else None
    case Lose(i) => if k == i then Some(C.Lost) else None
    case Announced(j, m) => if k == j then Some(C.Appended(m)) else None
    case Exchange(i, j, replied) =>
      if k == i then
        if replied then Some(C.AppendAnswered(j, Deliver(s.nodes[i], s.nodes[j]).1)) else None
      else if k == j && Outbound(s.nodes[i], j).SendAppend? then Some(C.Appended(Outbound(s.nodes[i], j).args))
      else None
    case Submit(i, command) => if k == i then Some(C.Proposed(command)) else None
    case Apply(i) => if k == i then Some(C.Applied) else None
    case Restart(i) => if k == i then Some(C.Crashed) else None
  }

  ghost function Acted(n: Node, a: Option<C.Action>): Node {
    match a
    case None => n
    case Some(action) => C.NodeAfter(n, action)
  }

  lemma ExchangeActs(w: World, s: System, i: int, j: int, replied: bool, k: int)
    requires Enabled(w, s, Exchange(i, j, replied)) && k in w.ids && i != j && s.nodes[j].id == j
    ensures Do(w, s, Exchange(i, j, replied)).nodes.Keys == w.ids
    ensures Do(w, s, Exchange(i, j, replied)).nodes[k] == Acted(s.nodes[k], ActionOn(s, Exchange(i, j, replied), k))
  {
  }

  lemma RestartActs(w: World, s: System, i: int, k: int)
    requires Fires(w, s, Restart(i)) && k in w.ids && s.nodes[k].id == k && s.nodes[k].peers == w.ids - {k}
    ensures Outcome(w, s, Restart(i)).nodes.Keys == w.ids
    ensures Outcome(w, s, Restart(i)).nodes[k] == Acted(s.nodes[k], ActionOn(s, Restart(i), k))
  {
  }

  lemma OtherActs(w: World, s: System, e: Event, k: int)
    requires Enabled(w, s, e) && !e.Exchange? && !e.Restart? && k in w.ids
    ensures Do(w, s, e).nodes.Keys == w.ids
    ensures Do(w, s, e).nodes[k] == Acted(s.nodes[k], ActionOn(s, e, k))
  {
  }

  lemma EventActs(w: World, s: System, e: Event, k: int)
    requires Fires(w, s, e) && k in w.ids
    requires forall i :: i in w.ids ==> s.nodes[i].id == i && s.nodes[i].peers == w.ids - {i}
    ensures Outcome(w, s, e).nodes.Keys == w.ids
    ensures Outcome(w, s, e).nodes[k] == Acted(s.nodes[k], ActionOn(s, e, k))
  {
    if e.Exchange? {
      ExchangeActs(w, s, e.i, e.j, e.replied, k);
    } else if e.Restart? {
      RestartActs(w, s, e.i, k);
    } else {
      OtherActs(w, s, e, k);
    }
  }

  // ----- what holds of every node -----

  predicate PlainLog(log: seq<Entry>) {
    forall e :: e in log ==> Plain(e)
  }

  /** What a node that leads knows of its peers: whom it may ship what. */
  predicate TracksPeers(n: Node) {
    forall j :: j in n.peers ==> j in n.nextIndex && n.nextIndex[j] <= |n.log| + 1
  }

  predicate Sound(w: World, i: int, n: Node) {
    && n.id == i && n.peers == w.ids - {i} && i != -1
    && n.snapshot == None && n.lastSnapshotIndex == 0 && n.disk.snapshot == None
    && n.disk.state.Some? && PlainLog(n.log) && PlainLog(n.disk.state.value.log)
    && (n.role != Follower ==> n.votedFor == i)
    && (n.role == Leader ==> TracksPeers(n))
  }

  /** Nothing but what happens in these runs: plain entries, and outcomes of exchanges with peers. */
  predicate Tame(n: Node, a: C.Action) {
    match a
    case Appended(m) => PlainLog(m.entries)
    case Proposed(command) => Plain(Commands.EntryOf(n.currentTerm, command))
    case AppendAnswered(f, _) => f in n.peers
    case Installed(_) => false
    case InstallAnswered(_, _) => false
    case Compacted => false
    case AddAsked(_) => false
    case RemoveAsked(_) => false
    case Won => n.role == Candidate
    case _ => true
  }

  lemma SpliceIsSound(w: World, i: int, n: Node, m: AppendArgs)
    requires Sound(w, i, n) && n.role == Follower && PlainLog(m.entries)
    ensures Sound(w, i, Splice(n, m))
  {
  }

  lemma AppendIsSound(w: World, i: int, n: Node, m: AppendArgs)
    requires Sound(w, i, n) && PlainLog(m.entries)
    ensures Sound(w, i, AppendEntries(n, m).0)
  {
    var l := ObserveLeader(n, m.term, m.leaderId);
    assert Sound(w, i, l);
    SpliceIsSound(w, i, l, m);
  }

  lemma AnswerIsSound(w: World, i: int, n: Node, f: int, reply: AppendReply)
    requires Sound(w, i, n)
    ensures Sound(w, i, HandleAppendReply(n, f, n.currentTerm, n.lastSnapshotIndex, reply))
  {
  }

  lemma ApplyIsSound(w: World, i: int, n: Node)
    requires Sound(w, i, n)
    ensures Sound(w, i, ApplyNext(n)) && C.KeepsState(n, C.Applied)
  {
    if NextEntry(n).Some? { assert NextEntry(n).value in n.log; }
  }

  lemma StaysSound(w: World, i: int, n: Node, a: C.Action)
    requires Sound(w, i, n) && Tame(n, a)
    ensures Sound(w, i, C.NodeAfter(n, a))
  {
    match a
    case Appended(m) => AppendIsSound(w, i, n, m);
    case AppendAnswered(f, reply) => AnswerIsSound(w, i, n, f, reply);
    case Applied => ApplyIsSound(w, i, n);
    case _ =>
  }

  ghost predicate AllSound(w: World, s: System) {
    && s.nodes.Keys == w.ids
    && (forall i :: i in w.ids ==> Sound(w, i, s.nodes[i]))
    && (forall m :: m in s.requests ==> m.candidate in w.ids)
    && forall m :: m in s.announcements ==> m.entries == []
  }

  lemma ShipsPlain(n: Node, f: int)
    requires PlainLog(n.log) && Outbound(n, f).SendAppend?
    ensures PlainLog(Outbound(n, f).args.entries)
  {
  }

  lemma EventIsTame(w: World, s: System, e: Event, k: int)
    requires AllSound(w, s) && Fires(w, s, e) && k in w.ids && ActionOn(s, e, k).Some?
    ensures Tame(s.nodes[k], ActionOn(s, e, k).value)
    ensures -1 !in w.ids ==> C.Genuine(ActionOn(s, e, k).value)
    ensures C.KeepsState(s.nodes[k], ActionOn(s, e, k).value)
  {
    match e
    case Exchange(i, j, _) =>
      if Outbound(s.nodes[i], j).SendAppend? { ShipsPlain(s.nodes[i], j); }
    case Apply(i) => ApplyIsSound(w, i, s.nodes[i]);
    case _ =>
  }

  lemma AnnouncesNothing(n: Node)
    ensures WindowFrom(n, n.LastIndex() + 1).entries == []
  {
  }

  lemma NodeStaysSound(w: World, s: System, e: Event, k: int)
    requires AllSound(w, s) && Fires(w, s, e) && k in w.ids
    ensures Outcome(w, s, e).nodes.Keys == w.ids && Sound(w, k, Outcome(w, s, e).nodes[k])
  {
    EventActs(w, s, e, k);
    if ActionOn(s, e, k).Some? {
      EventIsTame(w, s, e, k);
      StaysSound(w, k, s.nodes[k], ActionOn(s, e, k).value);
    }
  }

  /** What is under way stays harmless. */
  lemma NetworkIsSound(w: World, s: System, e: Event)
    requires AllSound(w, s) && Fires(w, s, e)
    ensures forall m :: m in Outcome(w, s, e).requests ==> m.candidate in w.ids
    ensures forall m :: m in Outcome(w, s, e).announcements ==> m.entries == []
  {
    if e.Win? { AnnouncesNothing(BecomeLeader(s.nodes[e.i])); }
  }

  lemma StepIsSound(w: World, s: System, e: Event)
    requires AllSound(w, s) && Fires(w, s, e)
    ensures AllSound(w, Outcome(w, s, e))
  {
    var s' := Outcome(w, s, e);
    forall k | k in w.ids ensures s'.nodes.Keys == w.ids && Sound(w, k, s'.nodes[k]) {
      NodeStaysSound(w, s, e, k);
    }
    NetworkIsSound(w, s, e);
  }

  lemma NextIsSound(w: World, s: System, e: Event, s': System)
    requires AllSound(w, s) && CrashNext(w, s, e, s')
    ensures AllSound(w, s')
  {
    StepIsSound(w, s, e);
  }

  lemma BootsSound(w: World, s: System)
    requires WellFormed(w) && Initial(w, s)
    ensures AllSound(w, s)
  {
  }

  lemma {:induction false} SoundRun(w: World, states: seq<System>, events: seq<Event>, x: nat)
    requires WellFormed(w) && IsCrashRun(w, states, events) && x < |states|
    ensures AllSound(w, states[x])
    decreases x
  {
    if x == 0 {
      BootsSound(w, states[0]);
    } else {
      var k := x - 1;
      SoundRun(w, states, events, k);
      assert CrashNext(w, states[k], events[k], states[k + 1]);
      NextIsSound(w, states[k], events[k], states[k + 1]);
    }
  }

  // ----- every leader has won its term -----

  lemma AppendLeads(f: Node, m: AppendArgs)
    ensures AppendEntries(f, m).0.role == Leader ==> AppendEntries(f, m).0 == f
  {
  }

  lemma AnswerLeads(n: Node, f: int, reply: AppendReply)
    ensures var n' := HandleAppendReply(n, f, n.currentTerm, n.lastSnapshotIndex, reply);
      n'.role == Leader ==> n.role == Leader && n'.currentTerm == n.currentTerm
  {
  }

  lemma VoteLeads(n: Node, m: VoteRequest)
    ensures RequestVote(n, m).0.role == Leader ==> n.role == Leader && RequestVote(n, m).0.currentTerm == n.currentTerm
  {
  }

  lemma ApplyLeads(n: Node)
    ensures ApplyNext(n).role == n.role && ApplyNext(n).currentTerm == n.currentTerm
  {
  }

  /** Only winning makes a node the leader of a term, and leaves it in that term. */
  lemma ActionLeads(n: Node, a: C.Action)
    requires Tame(n, a) && C.NodeAfter(n, a).role == Leader
    ensures C.NodeAfter(n, a).currentTerm == n.currentTerm && (n.role == Leader || a.Won?)
  {
    match a
    case VoteAsked(m) => VoteLeads(n, m);
    case Appended(m) => AppendLeads(n, m);
    case AppendAnswered(f, reply) => AnswerLeads(n, f, reply);
    case Applied => ApplyLeads(n);
    case _ =>
  }

  ghost predicate WonTerm(states: seq<System>, events: seq<Event>, z: nat, i: int, t: nat) {
    && z < |events| && HasNode(states, z, i) && events[z].Win? && events[z].i == i
    && states[z].nodes[i].currentTerm == t
  }

  lemma StepLeads(w: World, s: System, e: Event, a: int)
    requires AllSound(w, s) && Fires(w, s, e) && a in w.ids
    ensures var s' := Outcome(w, s, e);
      && s'.nodes.Keys == w.ids
      && (s'.nodes[a].role == Leader ==>
            && s'.nodes[a].currentTerm == s.nodes[a].currentTerm
            && (s.nodes[a].role == Leader || (e.Win? && e.i == a)))
  {
    EventActs(w, s, e, a);
    if ActionOn(s, e, a).Some? && Outcome(w, s, e).nodes[a].role == Leader {
      EventIsTame(w, s, e, a);
      ActionLeads(s.nodes[a], ActionOn(s, e, a).value);
    }
  }

  lemma EventLeads(w: World, states: seq<System>, events: seq<Event>, k: nat, a: int)
    requires WellFormed(w) && IsCrashRun(w, states, events) && k < |events| && HasNode(states, k + 1, a)
    requires states[k + 1].nodes[a].role == Leader
    ensures HasNode(states, k, a) && states[k].nodes[a].currentTerm == states[k + 1].nodes[a].currentTerm
    ensures states[k].nodes[a].role == Leader || (events[k].Win? && events[k].i == a)
  {
    SoundRun(w, states, events, k);
    SoundRun(w, states, events, k + 1);
    CrashStep(w, states, events, k);
    StepLeads(w, states[k], events[k], a);
  }

  /** Every leader has won its term, at some earlier point of the run. */
  lemma {:induction false} LeaderHasWon(w: World, states: seq<System>, events: seq<Event>, x: nat, i: int)
      returns (z: nat)
    requires WellFormed(w) && IsCrashRun(w, states, events)
    requires HasNode(states, x, i) && states[x].nodes[i].role == Leader
    ensures z < x && WonTerm(states, events, z, i, states[x].nodes[i].currentTerm)
    decreases x
  {
    if x == 0 {
      assert false;
    } else {
      EventLeads(w, states, events, x - 1, i);
      z := x - 1;
      if !(events[x - 1].Win? && events[x - 1].i == i) {
        z := LeaderHasWon(w, states, events, x - 1, i);
      }
    }
  }

  // ----- votes -----

  /** The voter has its vote in memory and on disk. */
  predicate Kept(w: World, s: System, g: Grant) {
    && g.voter in w.ids && g.voter in s.nodes && g.candidate in w.ids && g.voter != g.candidate
    && C.MemoryRemembers(s.nodes[g.voter], C.Vote(g.term, g.candidate))
    && C.DiskRemembers(s.nodes[g.voter], C.Vote(g.term, g.candidate))
  }

  predicate SameVote(g: Grant, g': Grant) {
    g.term == g'.term && g.voter == g'.voter ==> g.candidate == g'.candidate
  }

  ghost predicate VotesKept(w: World, s: System) {
    && (forall g :: g in s.grants ==> Kept(w, s, g))
    && forall g, g' :: g in s.grants && g' in s.grants ==> SameVote(g, g')
  }

  lemma StaysKept(w: World, s: System, e: Event, g: Grant)
    requires WellFormed(w) && AllSound(w, s) && Fires(w, s, e) && Kept(w, s, g)
    ensures Kept(w, Outcome(w, s, e), g)
  {
    var v := g.voter;
    EventActs(w, s, e, v);
    if ActionOn(s, e, v).Some? {
      EventIsTame(w, s, e, v);
      C.VoteIsRemembered(s.nodes[v], ActionOn(s, e, v).value, C.Vote(g.term, g.candidate));
    }
  }

  /** The grant that an event adds, if it adds one. */
  lemma NewGrant(w: World, s: System, e: Event, g: Grant)
    requires Fires(w, s, e) && g in Outcome(w, s, e).grants && g !in s.grants
    ensures e.CastVote? && g == Grant(e.request.term, e.j, e.request.candidate)
    ensures e.j in w.ids && e.request in s.requests && e.j != e.request.candidate
    ensures RequestVote(s.nodes[e.j], e.request).1
  {
  }

  lemma NewGrantIsKept(w: World, s: System, e: Event, g: Grant)
    requires WellFormed(w) && AllSound(w, s) && Fires(w, s, e) && g in Outcome(w, s, e).grants && g !in s.grants
    ensures Kept(w, Outcome(w, s, e), g)
    ensures forall g' :: Kept(w, s, g') ==> SameVote(g, g')
  {
    NewGrant(w, s, e, g);
    C.GrantIsRecorded(s.nodes[e.j], e.request);
  }

  lemma StepKeepsVotes(w: World, s: System, e: Event)
    requires WellFormed(w) && AllSound(w, s) && Fires(w, s, e) && VotesKept(w, s)
    ensures VotesKept(w, Outcome(w, s, e)) && s.grants <= Outcome(w, s, e).grants
  {
    var s' := Outcome(w, s, e);
    forall g | g in s'.grants ensures Kept(w, s', g) {
      if g in s.grants { StaysKept(w, s, e, g); } else { NewGrantIsKept(w, s, e, g); }
    }
    forall g, g' | g in s'.grants && g' in s'.grants ensures SameVote(g, g') {
      if g !in s.grants && g' !in s.grants {
        NewGrant(w, s, e, g);
        NewGrant(w, s, e, g');
      } else if g !in s.grants {
        NewGrantIsKept(w, s, e, g);
      } else if g' !in s.grants {
        NewGrantIsKept(w, s, e, g');
      }
    }
  }

  lemma NextKeepsVotes(w: World, s: System, e: Event, s': System)
    requires WellFormed(w) && AllSound(w, s) && VotesKept(w, s) && CrashNext(w, s, e, s')
    ensures VotesKept(w, s') && s.grants <= s'.grants
  {
    StepKeepsVotes(w, s, e);
  }

  lemma {:induction false} RunKeepsVotes(w: World, states: seq<System>, events: seq<Event>, x: nat)
    requires WellFormed(w) && IsCrashRun(w, states, events) && x < |states|
    ensures VotesKept(w, states[x])
    decreases x
  {
    if x == 0 {
    } else {
      var k := x - 1;
      SoundRun(w, states, events, k);
      RunKeepsVotes(w, states, events, k);
      assert CrashNext(w, states[k], events[k], states[k + 1]);
      NextKeepsVotes(w, states[k], events[k], states[k + 1]);
    }
  }

  lemma {:induction false} GrantsStay(w: World, states: seq<System>, events: seq<Event>, x: nat, y: nat)
    requires WellFormed(w) && IsCrashRun(w, states, events) && x <= y < |states|
    ensures states[x].grants <= states[y].grants
    decreases y
  {
    if x == y {
    } else {
      var k := y - 1;
      GrantsStay(w, states, events, x, k);
      SoundRun(w, states, events, k);
      RunKeepsVotes(w, states, events, k);
      assert CrashNext(w, states[k], events[k], states[k + 1]);
      NextKeepsVotes(w, states[k], events[k], states[k + 1]);
    }
  }
}
