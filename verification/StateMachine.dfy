/** The key-value store as a value: executing one committed entry, and folding a log into a store. */
module StateMachine {
  import opened Types

  /** The store after a committed entry has been executed on it. */
  function Execute(e: Entry, data: Data): Data {
    if e.command == "SET" then
      if e.key == "" then data else data[e.key := e.value]
    else if e.command == "DELETE" then
      if e.key == "" then data else data - {e.key}
    else if e.command == "CLEAN" then map[]
    else data
  }

  /** The store after executing every entry of `log` in order. */
  function Fold(log: seq<Entry>, data: Data): Data {
    if log == [] then data else Execute(log[|log| - 1], Fold(log[..|log| - 1], data))
  }

  /** One more entry. */
  lemma FoldNext(log: seq<Entry>, k: nat, data: Data)
    requires k < |log|
    ensures Fold(log[..k + 1], data) == Execute(log[k], Fold(log[..k], data))
  {
    assert log[..k + 1][..k] == log[..k];
  }

  /** Folding a log is folding one part after the other. */
  lemma {:induction false} FoldConcat(a: seq<Entry>, b: seq<Entry>, data: Data)
    ensures Fold(a + b, data) == Fold(b, Fold(a, data))
    decreases |b|
  {
    if b == [] {
      assert a + b == a;
    } else {
      var front := b[..|b| - 1];
      assert (a + b)[..|a + b| - 1] == a + front;
      FoldConcat(a, front, data);
    }
  }

  // ----- executing again -----

  /** Executing the entry settles what the store holds for the key, whatever it held before. */
  predicate Settles(e: Entry, key: string) {
    ((e.command == "SET" || e.command == "DELETE") && e.key == key && key != "") || e.command == "CLEAN"
  }

  predicate SettledBy(log: seq<Entry>, key: string) {
    exists p :: 0 <= p < |log| && Settles(log[p], key)
  }

  /** Two stores hold the same, or both nothing, for the key. */
  predicate SameAt(a: Data, b: Data, key: string) {
    (key in a <==> key in b) && (key in a ==> a[key] == b[key])
  }

  ghost predicate SameUnlessSettled(log: seq<Entry>, a: Data, b: Data) {
    forall key: string :: SettledBy(log, key) || SameAt(a, b, key)
  }

  /** A key that no entry of the log settles keeps what the store held for it. */
  lemma {:induction false} UnsettledIsKept(log: seq<Entry>, data: Data, key: string)
    requires !SettledBy(log, key)
    ensures SameAt(Fold(log, data), data, key)
    decreases |log|
  {
    if log == [] {
    } else {
      var front := log[..|log| - 1];
      forall p | 0 <= p < |front| ensures !Settles(front[p], key) {
        assert front[p] == log[p];
      }
      UnsettledIsKept(front, data, key);
      assert !Settles(log[|log| - 1], key);
    }
  }

  /** Entry `p` is the last one that settles the key. */
  predicate SettlesLast(log: seq<Entry>, key: string, p: nat) {
    p < |log| && Settles(log[p], key) && forall q :: p < q < |log| ==> !Settles(log[q], key)
  }

  /** A key that a log settles is settled by a last entry. */
  lemma {:induction false} LastSettling(log: seq<Entry>, key: string) returns (p: nat)
    requires SettledBy(log, key)
    ensures SettlesLast(log, key, p)
    decreases |log|
  {
    var last := |log| - 1;
    if Settles(log[last], key) {
      p := last;
    } else {
      var front := log[..last];
      var q :| 0 <= q < |log| && Settles(log[q], key);
      assert front[q] == log[q];
      p := LastSettling(front, key);
      forall r | p < r < |log| ensures !Settles(log[r], key) {
        if r < last { assert log[r] == front[r]; }
      }
    }
  }

  /** After a SET of a key the store holds its value, and after any other entry that settles the key it holds none. */
  lemma SettledValue(log: seq<Entry>, data: Data, key: string, p: nat)
    requires SettlesLast(log, key, p)
    ensures key in Fold(log, data) <==> log[p].command == "SET"
    ensures key in Fold(log, data) ==> Fold(log, data)[key] == log[p].value
  {
    assert log == log[..p + 1] + log[p + 1..];
    FoldConcat(log[..p + 1], log[p + 1..], data);
    FoldNext(log, p, data);
    var rest := log[p + 1..];
    forall q | 0 <= q < |rest| ensures !Settles(rest[q], key) {
      assert rest[q] == log[p + 1 + q];
    }
    UnsettledIsKept(rest, Fold(log[..p + 1], data), key);
  }

  /** The last entry that settles the key sets it to the value. */
  predicate SetsLast(log: seq<Entry>, key: string, value: Value) {
    exists p: nat :: p < |log| && SettlesLast(log, key, p) && log[p].command == "SET" && log[p].value == value
  }

  /**
   What a log leads to, key by key: a key has a value if and only if the last entry that settles it is a SET of that
   value, with no DELETE of the key and no CLEAN behind it.
  */
  lemma FoldHolds(log: seq<Entry>, key: string, value: Value)
    ensures key in Fold(log, map[]) && Fold(log, map[])[key] == value <==> SetsLast(log, key, value)
  {
    if SettledBy(log, key) {
      var p := LastSettling(log, key);
      SettledValue(log, map[], key, p);
      forall q: nat | SettlesLast(log, key, q) ensures q == p { }
    } else {
      UnsettledIsKept(log, map[], key);
      forall q: nat ensures !SettlesLast(log, key, q) { }
    }
  }

  /** Executing one entry on stores that differ only where it and the rest settle them leaves the rest. */
  lemma DifferencesShrinkByOne(log: seq<Entry>, a: Data, b: Data)
    requires log != [] && SameUnlessSettled(log, a, b)
    ensures SameUnlessSettled(log[1..], Execute(log[0], a), Execute(log[0], b))
  {
    forall key: string | !SettledBy(log[1..], key) ensures SameAt(Execute(log[0], a), Execute(log[0], b), key) {
      if SettledBy(log, key) {
        var p :| 0 <= p < |log| && Settles(log[p], key);
        if p > 0 { assert Settles(log[1..][p - 1], key); }
      }
    }
  }

  /** Stores that differ only where the log settles them differ, part of the way, only where the rest does. */
  lemma {:induction false} DifferencesShrink(log: seq<Entry>, a: Data, b: Data, k: nat)
    requires SameUnlessSettled(log, a, b) && k <= |log|
    ensures SameUnlessSettled(log[k..], Fold(log[..k], a), Fold(log[..k], b))
    decreases k
  {
    if k > 0 {
      DifferencesShrink(log, a, b, k - 1);
      FoldNext(log, k - 1, a);
      FoldNext(log, k - 1, b);
      DifferencesShrinkByOne(log[k - 1..], Fold(log[..k - 1], a), Fold(log[..k - 1], b));
      assert log[k - 1..][1..] == log[k..];
    } else {
      assert log[0..] == log && log[..0] == [];
    }
  }

  /** Stores that differ nowhere are equal. */
  lemma SameEverywhere(a: Data, b: Data)
    requires SameUnlessSettled([], a, b)
    ensures a == b
  {
    forall key: string ensures SameAt(a, b, key) {
      assert !SettledBy([], key);
    }
    forall key: string ensures key in a <==> key in b { assert SameAt(a, b, key); }
    assert a.Keys == b.Keys;
    forall key | key in a ensures a[key] == b[key] { assert SameAt(a, b, key); }
  }

  /** The same log takes stores that differ only where it settles them to the same store. */
  lemma FoldConverges(log: seq<Entry>, a: Data, b: Data)
    requires SameUnlessSettled(log, a, b)
    ensures Fold(log, a) == Fold(log, b)
  {
    DifferencesShrink(log, a, b, |log|);
    assert log[|log|..] == [] && log[..|log|] == log;
    SameEverywhere(Fold(log, a), Fold(log, b));
  }

  /** The same log takes two stores to one if and only if they differ only where it settles them. */
  lemma FoldsAgree(log: seq<Entry>, a: Data, b: Data)
    ensures Fold(log, a) == Fold(log, b) <==> SameUnlessSettled(log, a, b)
  {
    if Fold(log, a) == Fold(log, b) {
      forall key: string | !SettledBy(log, key) ensures SameAt(a, b, key) {
        UnsettledIsKept(log, a, key);
        UnsettledIsKept(log, b, key);
      }
    } else if SameUnlessSettled(log, a, b) {
      FoldConverges(log, a, b);
      assert false;
    }
  }

  /** Two folds of one log are the same store if and only if they hold the same for every key that it leaves alone. */
  lemma FoldsAgreeAfter(log: seq<Entry>, a: Data, b: Data)
    ensures Fold(log, a) == Fold(log, b) <==> SameUnlessSettled(log, Fold(log, a), Fold(log, b))
  {
    forall key: string | !SettledBy(log, key)
      ensures SameAt(Fold(log, a), Fold(log, b), key) <==> SameAt(a, b, key)
    {
      UnsettledIsKept(log, a, key);
      UnsettledIsKept(log, b, key);
    }
    FoldsAgree(log, a, b);
  }

  /** Every key of the store is one that the log settles. */
  predicate OnlySettled(log: seq<Entry>, data: Data) {
    forall key :: key in data ==> SettledBy(log, key)
  }

  /** A fold on any store is the fold on the empty one if and only if the log settles all that it holds. */
  lemma FoldFromNothing(log: seq<Entry>, base: Data)
    ensures Fold(log, base) == Fold(log, map[]) <==> OnlySettled(log, Fold(log, base))
  {
    forall key: string | !SettledBy(log, key) ensures key !in Fold(log, map[]) {
      UnsettledIsKept(log, map[], key);
    }
    FoldsAgreeAfter(log, base, map[]);
  }

  /** A store that differs from a fold only where the rest settles it differs from the start only where all does. */
  lemma DifferencesFromStart(log: seq<Entry>, k: nat, store: Data, data: Data)
    requires k <= |log| && SameUnlessSettled(log[k..], store, Fold(log[..k], data))
    ensures SameUnlessSettled(log, store, data)
  {
    forall key: string ensures SettledBy(log, key) || SameAt(store, data, key) {
      if SettledBy(log[..k], key) {
        var p :| 0 <= p < |log[..k]| && Settles(log[..k][p], key);
        assert Settles(log[p], key);
      } else if SettledBy(log[k..], key) {
        var p :| 0 <= p < |log[k..]| && Settles(log[k..][p], key);
        assert Settles(log[k + p], key);
      } else {
        UnsettledIsKept(log[..k], data, key);
        assert SameAt(store, Fold(log[..k], data), key);
      }
    }
  }

  /** Executing a log again from its start, on the store it led to part of the way, makes no difference. */
  lemma ReplayConverges(log: seq<Entry>, k: nat, data: Data)
    requires k <= |log|
    ensures Fold(log, Fold(log[..k], data)) == Fold(log, data)
  {
    DifferencesFromStart(log, k, Fold(log[..k], data), data);
    FoldConverges(log, Fold(log[..k], data), data);
  }
}
