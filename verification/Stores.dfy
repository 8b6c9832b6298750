/** The stores that nodes hold, in every state of every run: exactly when they are what the applied entries lead to. */
module Stores {
  import opened Types
  import opened StateMachine
  import opened NodeSpec
  import opened Cluster
  import opened History
  import opened Elections
  import opened Application
  import opened Runs
  import opened Theorems
  import Commands

  // ----- every store is the applied entries executed on some store -----

  lemma AppendKeepsStore(f: Node, m: AppendArgs)
    ensures AppendEntries(f, m).0.store == f.store && AppendEntries(f, m).0.lastApplied == f.lastApplied
  {
  }

  lemma DeliverKeepsStore(n: Node, f: Node)
    ensures Deliver(n, f).0.store == f.store && Deliver(n, f).0.lastApplied == f.lastApplied
  {
    if Outbound(n, f.id).SendAppend? { AppendKeepsStore(f, Outbound(n, f.id).args); }
  }

  lemma SettleKeepsStore(n: Node, j: int, reply: AppendReply)
    ensures Settle(n, j, reply).store == n.store && Settle(n, j, reply).lastApplied == n.lastApplied
  {
  }

  predicate TouchesStore(e: Event, a: int) {
    (e.Apply? && e.i == a) || (e.Restart? && e.i == a)
  }

  /** Only applying and restarting touch a node's store, or how much it has applied. */
  lemma StepKeepsStore(w: World, s: System, e: Event, a: int)
    requires Enabled(w, s, e) && a in w.ids && !TouchesStore(e, a)
    ensures a in Do(w, s, e).nodes
    ensures Do(w, s, e).nodes[a].store == s.nodes[a].store
    ensures Do(w, s, e).nodes[a].lastApplied == s.nodes[a].lastApplied
  {
    match e
    case Announced(j, m) => AppendKeepsStore(s.nodes[j], m);
    case Exchange(i, j, _) =>
      DeliverKeepsStore(s.nodes[i], s.nodes[j]);
      SettleKeepsStore(s.nodes[i], j, Deliver(s.nodes[i], s.nodes[j]).1);
    case _ =>
  }

  /** Applying executes the next committed entry, and leaves the log alone. */
  lemma ApplyRuns(w: World, s: System, h: History, a: int)
    requires WellFormed(w) && Inv(w, s, h) && a in w.ids
    ensures var n, n' := s.nodes[a], ApplyNext(s.nodes[a]);
      && n'.log == n.log && n.lastApplied <= n.commitIdx <= |n.log|
      && (n.lastApplied == n.commitIdx ==> n' == n)
      && (n.lastApplied < n.commitIdx ==>
            n'.lastApplied == n.lastApplied + 1 && n'.store == Execute(n.log[n.lastApplied], n.store))
  {
    var n := s.nodes[a];
    if n.lastApplied < n.commitIdx {
      CanonicalEntries(w, h, n.log, n.lastApplied);
      ApplyExecutes(n);
    }
  }

  /** Restarting keeps the store and counts nothing as applied. */
  lemma RestartKeepsStore(w: World, s: System, h: History, a: int)
    requires Inv(w, s, h) && a in w.ids
    ensures var n' := Recover(a, w.ids - {a}, s.nodes[a].disk);
      n'.store == s.nodes[a].store && n'.lastApplied == 0
  {
  }

  /** What the node has applied of its log. */
  function AppliedLog(n: Node): seq<Entry>
    requires n.lastApplied <= |n.log|
  {
    n.log[..n.lastApplied]
  }

  /** What one event does to a node's store and to how much it has applied. */
  ghost predicate StoreFollows(n: Node, n': Node, e: Event, a: int) {
    if e == Restart(a) then n'.store == n.store && n'.lastApplied == 0
    else if e == Apply(a) && n.lastApplied < n.commitIdx <= |n.log| then
      && n'.log == n.log && n'.lastApplied == n.lastApplied + 1
      && n'.store == Execute(n.log[n.lastApplied], n.store)
    else n'.store == n.store && n'.lastApplied == n.lastApplied
  }

  lemma ApplyFollows(w: World, s: System, h: History, a: int)
    requires WellFormed(w) && Inv(w, s, h) && a in w.ids
    ensures StoreFollows(s.nodes[a], ApplyNext(s.nodes[a]), Apply(a), a)
  {
    ApplyRuns(w, s, h, a);
  }

  lemma StepStore(w: World, s: System, h: History, e: Event, a: int)
    requires WellFormed(w) && Inv(w, s, h) && Enabled(w, s, e) && a in w.ids
    ensures a in Do(w, s, e).nodes && StoreFollows(s.nodes[a], Do(w, s, e).nodes[a], e, a)
  {
    if e == Restart(a) {
      RestartKeepsStore(w, s, h, a);
    } else if e == Apply(a) {
      ApplyFollows(w, s, h, a);
    } else {
      StepKeepsStore(w, s, e, a);
    }
  }

  lemma EventStore(w: World, states: seq<System>, events: seq<Event>, k: nat, a: int)
    requires Run(w, states, events) && k < |events| && HasNode(states, k, a)
    ensures HasNode(states, k + 1, a)
    ensures StoreFollows(states[k].nodes[a], states[k + 1].nodes[a], events[k], a)
  {
    SameNodes(w, states, events, k);
    SameNodes(w, states, events, k + 1);
    var hs := RunHasHistories(w, states, events);
    assert Inv(w, states[k], hs[k]) && Next(w, states[k], events[k], states[k + 1]);
    StepStore(w, states[k], hs[k], events[k], a);
  }

  lemma BaseAfterEvent(w: World, states: seq<System>, events: seq<Event>, k: nat, a: int, base: Data)
      returns (base': Data)
    requires Run(w, states, events) && k < |events| && HasNode(states, k, a)
    requires var n := states[k].nodes[a]; n.lastApplied <= |n.log| && n.store == Fold(AppliedLog(n), base)
    ensures HasNode(states, k + 1, a)
    ensures var n' := states[k + 1].nodes[a]; n'.lastApplied <= |n'.log| && n'.store == Fold(AppliedLog(n'), base')
  {
    EventStore(w, states, events, k, a);
    IndicesInOrder(w, states, events, k, a);
    CommittedPrefixStability(w, states, events, k, k + 1, a);
    var n, n' := states[k].nodes[a], states[k + 1].nodes[a];
    base' := base;
    if events[k] == Restart(a) {
      base' := n.store;
      assert AppliedLog(n') == [];
    } else if events[k] == Apply(a) && n.lastApplied < n.commitIdx <= |n.log| {
      FoldNext(n.log, n.lastApplied, base);
    } else {
      assert n'.log[..n.commitIdx] == n.log[..n.commitIdx];
      assert n.log[..n.commitIdx][..n.lastApplied] == AppliedLog(n);
      assert n'.log[..n.commitIdx][..n.lastApplied] == AppliedLog(n');
    }
  }

  /** In every state every node holds what its applied entries make of some store: the one it last started with. */
  lemma {:induction false} StoreHasBase(w: World, states: seq<System>, events: seq<Event>, x: nat, a: int)
      returns (base: Data)
    requires Run(w, states, events) && HasNode(states, x, a)
    ensures var n := states[x].nodes[a]; n.lastApplied <= |n.log| && n.store == Fold(AppliedLog(n), base)
    decreases x
  {
    if x == 0 {
      base := map[];
      SameNodes(w, states, events, 0);
    } else {
      SameNodes(w, states, events, x - 1);
      SameNodes(w, states, events, x);
      base := StoreHasBase(w, states, events, x - 1, a);
      base := BaseAfterEvent(w, states, events, x - 1, a, base);
    }
  }

  // ----- exactly when a store is the fold of what is applied, and when two stores agree -----

  /**
   In every state of every run a node holds exactly what its applied entries lead to from the empty store if and only
   if they settle every key that it holds. Any other key is left from before a restart, and the replay is still to
   come to it.
  */
  lemma StoreIsFold(w: World, states: seq<System>, events: seq<Event>, x: nat, a: int)
    requires Run(w, states, events) && HasNode(states, x, a)
    ensures var n := states[x].nodes[a];
      && n.lastApplied <= |n.log|
      && (n.store == Fold(AppliedLog(n), map[]) <==> OnlySettled(AppliedLog(n), n.store))
  {
    var base := StoreHasBase(w, states, events, x, a);
    FoldFromNothing(AppliedLog(states[x].nodes[a]), base);
  }

  /**
   State machine safety, for stores, exactly: nodes that have applied equally much, at any times, hold equal stores if
   and only if they hold the same for the keys that the applied entries do not settle.
  */
  lemma StoresAgree(w: World, states: seq<System>, events: seq<Event>, x: nat, a: int, y: nat, b: int)
    requires Run(w, states, events) && HasNode(states, x, a) && HasNode(states, y, b)
    requires states[x].nodes[a].lastApplied == states[y].nodes[b].lastApplied
    ensures var n, m := states[x].nodes[a], states[y].nodes[b];
      && n.lastApplied <= |n.log|
      && (n.store == m.store <==> SameUnlessSettled(AppliedLog(n), n.store, m.store))
  {
    var n, m := states[x].nodes[a], states[y].nodes[b];
    IndicesInOrder(w, states, events, x, a);
    IndicesInOrder(w, states, events, y, b);
    StateMachineSafety(w, states, events, x, a, y, b, n.lastApplied);
    var base := StoreHasBase(w, states, events, x, a);
    var base' := StoreHasBase(w, states, events, y, b);
    FoldsAgreeAfter(AppliedLog(n), base, base');
  }

  /** So they do when neither holds a key that its applied entries do not settle. */
  lemma StoresAgreeWhenSettled(w: World, states: seq<System>, events: seq<Event>, x: nat, a: int, y: nat, b: int)
    requires Run(w, states, events) && HasNode(states, x, a) && HasNode(states, y, b)
    requires states[x].nodes[a].lastApplied == states[y].nodes[b].lastApplied
    requires var n := states[x].nodes[a]; n.lastApplied <= |n.log| && OnlySettled(AppliedLog(n), n.store)
    requires var m := states[y].nodes[b]; m.lastApplied <= |m.log| && OnlySettled(AppliedLog(m), m.store)
    ensures states[x].nodes[a].store == states[y].nodes[b].store
  {
    IndicesInOrder(w, states, events, x, a);
    IndicesInOrder(w, states, events, y, b);
    StateMachineSafety(w, states, events, x, a, y, b, states[x].nodes[a].lastApplied);
    StoreIsFold(w, states, events, x, a);
    StoreIsFold(w, states, events, y, b);
  }

  /** Right after a restart nothing counts as applied, so the store is ahead of its index unless it is empty. */
  lemma RestartedStoreIsAhead(w: World, states: seq<System>, events: seq<Event>, x: nat, a: int)
    requires Run(w, states, events) && x < |events| && HasNode(states, x, a) && events[x] == Restart(a)
    ensures HasNode(states, x + 1, a)
    ensures var n := states[x + 1].nodes[a];
      && n.lastApplied == 0 && n.store == states[x].nodes[a].store
      && (n.store == Fold(n.log[..n.lastApplied], map[]) <==> states[x].nodes[a].store == map[])
  {
    EventStore(w, states, events, x, a);
  }

  // ----- nodes that have caught up -----

  /** The node has applied, since its last restart, all that it had ever applied before. */
  ghost predicate CaughtUp(states: seq<System>, x: nat, a: int)
    requires HasNode(states, x, a)
  {
    forall z :: 0 <= z <= x && a in states[z].nodes ==>
      states[z].nodes[a].lastApplied <= states[x].nodes[a].lastApplied
  }

  lemma TallyAfterEvent(w: World, states: seq<System>, events: seq<Event>, hs: seq<History>, k: nat, a: int)
    requires AreHistories(w, states, events, hs) && k < |events| && a in w.ids
    ensures a in states[k + 1].nodes
    ensures Applied(hs[k + 1], a) == Applied(hs[k], a) || Applied(hs[k + 1], a) == states[k + 1].nodes[a].lastApplied
  {
    assert HistoryStep(states[k], events[k], states[k + 1], hs[k], hs[k + 1]);
    assert Inv(w, states[k + 1], hs[k + 1]);
  }

  lemma {:induction false} MostAppliedOnce(w: World, states: seq<System>, events: seq<Event>, hs: seq<History>,
        x: nat, a: int)
    requires AreHistories(w, states, events, hs) && x < |states| && a in w.ids
    ensures Applied(hs[x], a) == 0 ||
            exists z :: 0 <= z <= x && a in states[z].nodes && states[z].nodes[a].lastApplied == Applied(hs[x], a)
    decreases x
  {
    if x == 0 {
      assert Applied(hs[0], a) == 0;
    } else {
      MostAppliedOnce(w, states, events, hs, x - 1, a);
      TallyAfterEvent(w, states, events, hs, x - 1, a);
    }
  }

  lemma AppliedMost(w: World, states: seq<System>, events: seq<Event>, hs: seq<History>, x: nat, a: int)
    requires AreHistories(w, states, events, hs) && a in w.ids && HasNode(states, x, a) && CaughtUp(states, x, a)
    ensures var n := states[x].nodes[a]; StoreOk(hs[x], n) && Applied(hs[x], n.id) == n.lastApplied
  {
    assert Inv(w, states[x], hs[x]);
    MostAppliedOnce(w, states, events, hs, x, a);
  }

  lemma SettledStore(h: History, n: Node)
    requires StoreOk(h, n) && Applied(h, n.id) == n.lastApplied
    ensures n.lastApplied <= |n.log| && n.store == Fold(AppliedLog(n), map[])
  {
    assert n.log[n.lastApplied..n.lastApplied] == [];
    SameEverywhere(n.store, Fold(AppliedLog(n), map[]));
  }

  /** A node that has caught up holds only what its applied entries settle, so its store is their fold. */
  lemma CaughtUpIsSettled(w: World, states: seq<System>, events: seq<Event>, x: nat, a: int)
    requires Run(w, states, events) && HasNode(states, x, a) && CaughtUp(states, x, a)
    ensures var n := states[x].nodes[a];
      n.lastApplied <= |n.log| && OnlySettled(AppliedLog(n), n.store) && n.store == Fold(AppliedLog(n), map[])
  {
    SameNodes(w, states, events, x);
    var hs := RunHasHistories(w, states, events);
    AppliedMost(w, states, events, hs, x, a);
    SettledStore(hs[x], states[x].nodes[a]);
    StoreIsFold(w, states, events, x, a);
  }

  /**
   What a node that has caught up holds, key by key: exactly the value of the last SET of the key that it has applied,
   unless it has applied a DELETE of the key behind that.
  */
  lemma CaughtUpHolds(w: World, states: seq<System>, events: seq<Event>, x: nat, a: int, key: string, value: Value)
    requires Run(w, states, events) && HasNode(states, x, a) && CaughtUp(states, x, a)
    ensures var n := states[x].nodes[a];
      && n.lastApplied <= |n.log|
      && (key in n.store && n.store[key] == value <==> SetsLast(AppliedLog(n), key, value))
  {
    CaughtUpIsSettled(w, states, events, x, a);
    FoldHolds(AppliedLog(states[x].nodes[a]), key, value);
  }

  /** A client's SET that such a node has applied is what it holds, until a later entry settles the key again. */
  lemma AppliedSetIsHeld(w: World, states: seq<System>, events: seq<Event>, x: nat, a: int,
        t: nat, key: string, value: string, p: nat)
    requires Run(w, states, events) && HasNode(states, x, a) && CaughtUp(states, x, a)
    requires p < states[x].nodes[a].lastApplied <= |states[x].nodes[a].log| && ':' !in key && key != ""
    requires states[x].nodes[a].log[p] == Commands.EntryOf(t, Commands.SetCommand(key, value))
    requires forall q :: p < q < states[x].nodes[a].lastApplied ==> !Settles(states[x].nodes[a].log[q], key)
    ensures var n := states[x].nodes[a]; key in n.store && n.store[key] == Text(value)
  {
    Commands.SetRoundTrip(t, key, value);
    assert SettlesLast(AppliedLog(states[x].nodes[a]), key, p);
    CaughtUpHolds(w, states, events, x, a, key, Text(value));
  }

  predicate NeverRestarts(events: seq<Event>, x: nat, a: int) {
    forall k :: 0 <= k < |events| && k < x ==> !(events[k].Restart? && events[k].i == a)
  }

  lemma {:induction false} AppliedGrows(w: World, states: seq<System>, events: seq<Event>, z: nat, x: nat, a: int)
    requires Run(w, states, events) && z <= x < |states| && a in w.ids && NeverRestarts(events, x, a)
    ensures HasNode(states, z, a) && HasNode(states, x, a)
    ensures states[z].nodes[a].lastApplied <= states[x].nodes[a].lastApplied
    decreases x
  {
    SameNodes(w, states, events, z);
    SameNodes(w, states, events, x);
    if z == x {
    } else {
      AppliedGrows(w, states, events, z, x - 1, a);
      EventStore(w, states, events, x - 1, a);
    }
  }

  /** A node that has not restarted has caught up. */
  lemma WithoutRestarts(w: World, states: seq<System>, events: seq<Event>, x: nat, a: int)
    requires Run(w, states, events) && HasNode(states, x, a) && NeverRestarts(events, x, a)
    ensures CaughtUp(states, x, a)
  {
    SameNodes(w, states, events, x);
    forall z | 0 <= z <= x && a in states[z].nodes
      ensures states[z].nodes[a].lastApplied <= states[x].nodes[a].lastApplied
    {
      AppliedGrows(w, states, events, z, x, a);
    }
  }

  /** Nodes that have never restarted and have applied equally much, at any times, hold equal stores. */
  lemma StoresAgreeWithoutRestarts(w: World, states: seq<System>, events: seq<Event>, x: nat, a: int, y: nat, b: int)
    requires Run(w, states, events) && HasNode(states, x, a) && HasNode(states, y, b)
    requires NeverRestarts(events, x, a) && NeverRestarts(events, y, b)
    requires states[x].nodes[a].lastApplied == states[y].nodes[b].lastApplied
    ensures states[x].nodes[a].store == states[y].nodes[b].store
  {
    WithoutRestarts(w, states, events, x, a);
    WithoutRestarts(w, states, events, y, b);
    CaughtUpIsSettled(w, states, events, x, a);
    CaughtUpIsSettled(w, states, events, y, b);
    StoresAgreeWhenSettled(w, states, events, x, a, y, b);
  }
}
