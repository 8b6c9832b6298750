/** Finite sets: choosing a member, extreme members, and majorities that meet. */
module Sets {

  lemma Pick<T>(s: set<T>) returns (x: T)
    requires s != {}
    ensures x in s
  {
    x :| x in s;
  }

  lemma KeyOf<K, V>(m: map<K, V>, v: V) returns (k: K)
    requires v in m.Values
    ensures k in m && m[k] == v
  {
    k :| k in m && m[k] == v;
  }

  lemma {:induction false} HasMinimum(s: set<int>) returns (m: int)
    requires s != {}
    ensures m in s && forall y :: y in s ==> m <= y
  {
    var x := Pick(s);
    m := x;
    if s == {x} {
    } else {
      var r := HasMinimum(s - {x});
      m := if r < x then r else x;
      assert forall y :: y in s ==> y == x || y in s - {x};
    }
  }

  lemma {:induction false} HasMaximum(s: set<int>) returns (m: int)
    requires s != {}
    ensures m in s && forall y :: y in s ==> y <= m
  {
    var x := Pick(s);
    m := x;
    if s == {x} {
    } else {
      var r := HasMaximum(s - {x});
      m := if r > x then r else x;
      assert forall y :: y in s ==> y == x || y in s - {x};
    }
  }

  lemma {:induction false} SubsetSize<T>(a: set<T>, b: set<T>)
    requires a <= b
    ensures |a| <= |b|
  {
    assert b == a + (b - a);
  }

  /** Two sets, each with more than half of a set's members, have a member in common. */
  lemma MajoritiesMeet<T>(all: set<T>, a: set<T>, b: set<T>) returns (x: T)
    requires a <= all && b <= all
    requires |a| > |all| / 2 && |b| > |all| / 2
    ensures x in a && x in b
  {
    if a * b == {} {
      assert |a + b| == |a| + |b|;
      SubsetSize(a + b, all);
      assert false;
    }
    x := Pick(a * b);
  }
}
