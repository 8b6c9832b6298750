/** The majority index: the sorted median of the leader's match indexes and its own last index. */
module CommitIndex {
  import opened Sets

  // ----- what the majority index is -----

  /** How many members, the leader included, have reached index `v`. */
  function Reached(matchIndex: map<int, int>, own: int, v: int): nat {
    |Reaching(matchIndex, matchIndex.Keys, v)| + if own >= v then 1 else 0
  }

  /** The keys among `keys` whose match index is at least `v`. */
  function Reaching(matchIndex: map<int, int>, keys: set<int>, v: int): set<int> {
    set k | k in keys && k in matchIndex && matchIndex[k] >= v
  }

  /** More than half of all members: the followers tracked in `matchIndex` and the leader. */
  function Quorum(matchIndex: map<int, int>): nat {
    (|matchIndex| + 1) / 2 + 1
  }

  function Values(matchIndex: map<int, int>, own: int): set<int> {
    matchIndex.Values + {own}
  }

  /** `v` is a member's value that a majority of the members has reached. */
  predicate Qualifies(matchIndex: map<int, int>, own: int, v: int) {
    v in Values(matchIndex, own) && Reached(matchIndex, own, v) >= Quorum(matchIndex)
  }

  /** `v` is the greatest member value that a majority of the members has reached. */
  ghost predicate IsMajority(matchIndex: map<int, int>, own: int, v: int) {
    Qualifies(matchIndex, own, v) && forall u :: Qualifies(matchIndex, own, u) ==> u <= v
  }

  ghost function Majority(matchIndex: map<int, int>, own: int): (v: int)
    ensures IsMajority(matchIndex, own, v)
  {
    MajorityExists(matchIndex, own);
    var v :| IsMajority(matchIndex, own, v);
    v
  }

  /** Everybody reaches the least value. */
  lemma LeastIsReached(matchIndex: map<int, int>, own: int) returns (least: int)
    ensures Qualifies(matchIndex, own, least)
  {
    least := HasMinimum(Values(matchIndex, own));
    forall k | k in matchIndex ensures matchIndex[k] >= least {
      assert matchIndex[k] in Values(matchIndex, own);
    }
    assert Reaching(matchIndex, matchIndex.Keys, least) == matchIndex.Keys;
    assert |matchIndex.Keys| == |matchIndex|;
  }

  /** Some value is reached by a majority, so a greatest one is. */
  lemma MajorityExists(matchIndex: map<int, int>, own: int)
    ensures exists v :: IsMajority(matchIndex, own, v)
  {
    var least := LeastIsReached(matchIndex, own);
    var qualifying := set v | v in Values(matchIndex, own) && Qualifies(matchIndex, own, v);
    assert least in qualifying;
    var v := HasMaximum(qualifying);
    forall u | Qualifies(matchIndex, own, u) ensures u <= v {
      assert u in qualifying;
    }
    assert IsMajority(matchIndex, own, v);
  }

  /** There is only one majority index. */
  lemma MajorityIsUnique(matchIndex: map<int, int>, own: int, v: int)
    requires IsMajority(matchIndex, own, v)
    ensures v == Majority(matchIndex, own)
  {
  }

  /** The higher an index, the fewer members have reached it. */
  lemma ReachedIsMonotone(matchIndex: map<int, int>, own: int, u: int, v: int)
    requires u <= v
    ensures Reached(matchIndex, own, v) <= Reached(matchIndex, own, u)
  {
    SubsetSize(Reaching(matchIndex, matchIndex.Keys, v), Reaching(matchIndex, matchIndex.Keys, u));
  }

  /** An index within the leader's log is reached by a majority exactly when it is at most the majority index. */
  lemma MajorityBounds(matchIndex: map<int, int>, own: int, i: int)
    requires i <= own
    ensures Reached(matchIndex, own, i) >= Quorum(matchIndex) <==> i <= Majority(matchIndex, own)
  {
    var v := Majority(matchIndex, own);
    if i <= v {
      ReachedIsMonotone(matchIndex, own, i, v);
    } else if Reached(matchIndex, own, i) >= Quorum(matchIndex) {
      var above := set u | u in Values(matchIndex, own) && u >= i;
      assert own in above;
      var next := HasMinimum(above);
      forall k | k in Reaching(matchIndex, matchIndex.Keys, i)
        ensures k in Reaching(matchIndex, matchIndex.Keys, next)
      {
        assert matchIndex[k] in above;
      }
      SubsetSize(Reaching(matchIndex, matchIndex.Keys, i), Reaching(matchIndex, matchIndex.Keys, next));
      assert Qualifies(matchIndex, own, next);
      assert false;
    }
  }

  // ----- counting in sequences -----

  /** How many elements are at least `v`. */
  function CountAtLeast(s: seq<int>, v: int): nat {
    if s == [] then 0 else CountAtLeast(s[..|s| - 1], v) + if s[|s| - 1] >= v then 1 else 0
  }

  lemma {:induction false} CountConcat(s: seq<int>, t: seq<int>, v: int)
    ensures CountAtLeast(s + t, v) == CountAtLeast(s, v) + CountAtLeast(t, v)
    decreases |t|
  {
    if t == [] {
      assert s + t == s;
    } else {
      assert (s + t)[..|s + t| - 1] == s + t[..|t| - 1];
      CountConcat(s, t[..|t| - 1], v);
    }
  }

  function Without(t: seq<int>, p: nat): seq<int>
    requires p < |t|
  {
    t[..p] + t[p + 1..]
  }

  /** Taking one element out takes one from the count, if it counts, and from the multiset. */
  lemma CountWithout(t: seq<int>, p: nat, v: int)
    requires p < |t|
    ensures CountAtLeast(t, v) == CountAtLeast(Without(t, p), v) + if t[p] >= v then 1 else 0
    ensures multiset(Without(t, p)) == multiset(t) - multiset{t[p]}
  {
    var x := t[p];
    assert t == t[..p] + [x] + t[p + 1..];
    CountConcat(t[..p], t[p + 1..], v);
    CountConcat(t[..p] + [x], t[p + 1..], v);
    CountConcat(t[..p], [x], v);
    assert [x][..0] == [];
  }

  /** Counting does not depend on the order. */
  lemma {:induction false} CountOfPermutation(s: seq<int>, t: seq<int>, v: int)
    requires multiset(s) == multiset(t)
    ensures CountAtLeast(s, v) == CountAtLeast(t, v)
    decreases |s|
  {
    if s == [] {
      assert |multiset(t)| == 0;
    } else {
      var x := s[|s| - 1];
      assert x in multiset(s) && x in multiset(t);
      var p :| 0 <= p < |t| && t[p] == x;
      CountWithout(s, |s| - 1, v);
      CountWithout(t, p, v);
      CountOfPermutation(Without(s, |s| - 1), Without(t, p), v);
    }
  }

  ghost predicate Descending(s: seq<int>) {
    forall i, j :: 0 <= i < j < |s| ==> s[i] >= s[j]
  }

  lemma {:induction false} CountBounds(s: seq<int>, k: nat, v: int)
    requires k <= |s|
    ensures (forall i :: 0 <= i < k ==> s[i] >= v) ==> CountAtLeast(s, v) >= k
    ensures (forall i :: k <= i < |s| ==> s[i] < v) ==> CountAtLeast(s, v) <= k
    decreases |s|
  {
    if s == [] {
    } else {
      var front := s[..|s| - 1];
      CountBounds(front, if k == |s| then k - 1 else k, v);
    }
  }

  /** The middle of a descending sequence is the greatest value that more than half of the elements reach. */
  lemma MedianOfDescending(s: seq<int>, u: int)
    requires Descending(s) && s != []
    ensures CountAtLeast(s, s[|s| / 2]) >= |s| / 2 + 1
    ensures u > s[|s| / 2] ==> CountAtLeast(s, u) <= |s| / 2
  {
    CountBounds(s, |s| / 2 + 1, s[|s| / 2]);
    CountBounds(s, |s| / 2, u);
  }

  // ----- the leader's computation -----

  /** The match indexes of the keys in `done`, in some order. */
  ghost predicate Lists(matchIndex: map<int, int>, done: set<int>, s: seq<int>) {
    && |s| == |done|
    && (forall i :: 0 <= i < |s| ==> s[i] in matchIndex.Values)
    && forall v: int {:trigger CountAtLeast(s, v)} :: CountAtLeast(s, v) == |Reaching(matchIndex, done, v)|
  }

  lemma ListsOneMore(matchIndex: map<int, int>, done: set<int>, s: seq<int>, k: int)
    requires Lists(matchIndex, done, s) && k in matchIndex && k !in done
    ensures Lists(matchIndex, done + {k}, s + [matchIndex[k]])
  {
    var s' := s + [matchIndex[k]];
    assert s'[..|s'| - 1] == s;
    forall v: int ensures CountAtLeast(s', v) == |Reaching(matchIndex, done + {k}, v)| {
      assert CountAtLeast(s, v) == |Reaching(matchIndex, done, v)|;
      if matchIndex[k] >= v {
        assert Reaching(matchIndex, done + {k}, v) == Reaching(matchIndex, done, v) + {k};
      } else {
        assert Reaching(matchIndex, done + {k}, v) == Reaching(matchIndex, done, v);
      }
    }
  }

  lemma ValueOfMember(matchIndex: map<int, int>, own: int, followers: seq<int>, sorted: seq<int>, m: int)
    requires Lists(matchIndex, matchIndex.Keys, followers) && m in sorted
    requires multiset(sorted) == multiset(followers + [own])
    ensures m in Values(matchIndex, own)
  {
    var all := followers + [own];
    assert m in multiset(sorted) && m in multiset(all) && m in all;
    var p :| 0 <= p < |all| && all[p] == m;
    if p < |followers| { assert all[p] == followers[p]; }
  }

  /** The middle of the sorted member values is the majority index. */
  lemma MedianIsMajority(matchIndex: map<int, int>, own: int, followers: seq<int>, sorted: seq<int>)
    requires Lists(matchIndex, matchIndex.Keys, followers)
    requires multiset(sorted) == multiset(followers + [own]) && Descending(sorted)
    ensures |sorted| == |matchIndex| + 1 && sorted[|sorted| / 2] == Majority(matchIndex, own)
  {
    var all := followers + [own];
    assert |matchIndex.Keys| == |matchIndex|;
    assert |sorted| == |multiset(sorted)| == |multiset(all)| == |all|;
    var m := sorted[|sorted| / 2];
    assert m in Values(matchIndex, own) by { ValueOfMember(matchIndex, own, followers, sorted, m); }
    assert all[..|all| - 1] == followers;
    forall v: int ensures CountAtLeast(sorted, v) == Reached(matchIndex, own, v) {
      CountOfPermutation(sorted, all, v);
      assert CountAtLeast(followers, v) == |Reaching(matchIndex, matchIndex.Keys, v)|;
    }
    MedianOfDescending(sorted, m);
    forall u | Qualifies(matchIndex, own, u) ensures u <= m {
      MedianOfDescending(sorted, u);
      assert CountAtLeast(sorted, u) == Reached(matchIndex, own, u);
    }
    assert CountAtLeast(sorted, m) == Reached(matchIndex, own, m);
    MajorityIsUnique(matchIndex, own, m);
  }

  method SwapWithNext(a: array<int>, j: nat)
    requires j + 1 < a.Length
    modifies a
    ensures a[j] == old(a[j + 1]) && a[j + 1] == old(a[j])
    ensures forall k :: 0 <= k < a.Length && k != j && k != j + 1 ==> a[k] == old(a[k])
    ensures multiset(a[..]) == multiset(old(a[..]))
  {
    a[j], a[j + 1] := a[j + 1], a[j];
  }

  /** Sorts into descending order by exchanging neighbours. */
  method SortDescending(a: array<int>)
    modifies a
    ensures Descending(a[..]) && multiset(a[..]) == multiset(old(a[..]))
  {
    var n := a.Length;
    var i := 0;
    while i < n - 1
      invariant 0 <= i <= n && (n > 0 ==> i < n)
      invariant multiset(a[..]) == multiset(old(a[..]))
      invariant forall p, q :: 0 <= p < q < n && n - i <= q ==> a[p] >= a[q]
    {
      var j := 0;
      while j < n - i - 1
        invariant 0 <= j <= n - i - 1
        invariant multiset(a[..]) == multiset(old(a[..]))
        invariant forall p, q :: 0 <= p < q < n && n - i <= q ==> a[p] >= a[q]
        invariant forall p :: 0 <= p < j ==> a[p] >= a[j]
      {
        if a[j] < a[j + 1] {
          SwapWithNext(a, j);
        }
        j := j + 1;
      }
      i := i + 1;
    }
  }

  /** Collects the match indexes, in some order, and then the leader's own last index. */
  method Collect(matchIndex: map<int, int>, own: int) returns (a: array<int>, ghost followers: seq<int>)
    ensures fresh(a) && Lists(matchIndex, matchIndex.Keys, followers) && a[..] == followers + [own]
  {
    assert |matchIndex.Keys| == |matchIndex|;
    a := new int[|matchIndex| + 1];
    followers := [];
    var i := 0;
    var todo := matchIndex.Keys;
    while todo != {}
      invariant todo <= matchIndex.Keys && i == |matchIndex| - |todo| == |followers| <= |matchIndex|
      invariant Lists(matchIndex, matchIndex.Keys - todo, followers)
      invariant a[..i] == followers
      decreases todo
    {
      ghost var some := Pick(todo);
      var k :| k in todo;
      ListsOneMore(matchIndex, matchIndex.Keys - todo, followers, k);
      assert matchIndex.Keys - (todo - {k}) == (matchIndex.Keys - todo) + {k};
      a[i] := matchIndex[k];
      followers := followers + [matchIndex[k]];
      i := i + 1;
      todo := todo - {k};
    }
    assert matchIndex.Keys - todo == matchIndex.Keys;
    a[i] := own;
    assert a[..i] == followers && a[..] == a[..i] + [own];
  }

  /** Collects the members' indexes, sorts them and takes the middle one. */
  method MajorityOf(matchIndex: map<int, int>, own: int) returns (majority: int)
    ensures majority == Majority(matchIndex, own)
  {
    var matchIndexes, followers := Collect(matchIndex, own);
    SortDescending(matchIndexes);
    MedianIsMajority(matchIndex, own, followers, matchIndexes[..]);
    majority := matchIndexes[matchIndexes.Length / 2];
  }
}
