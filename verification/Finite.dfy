/** Extremes and enumerations of finite sets under a total order. */
module Finite {
  ghost predicate TotalPreorder<T(!new)>(leq: (T, T) -> bool) {
    && (forall x, y :: leq(x, y) || leq(y, x))
    && (forall x, y, z :: leq(x, y) && leq(y, z) ==> leq(x, z))
  }

  ghost predicate IsLeast<T>(leq: (T, T) -> bool, m: T, s: set<T>) {
    m in s && forall x :: x in s ==> leq(m, x)
  }

  lemma {:induction false} LeastExists<T(!new)>(s: set<T>, leq: (T, T) -> bool)
    requires s != {} && TotalPreorder(leq)
    ensures exists m :: IsLeast(leq, m, s)
    decreases |s|
  {
    var x :| x in s;
    var rest := s - {x};
    if rest == {} {
      forall y | y in s
        ensures leq(x, y)
      {
        assert y !in rest;
      }
      assert IsLeast(leq, x, s);
    } else {
      LeastExists(rest, leq);
      var m :| IsLeast(leq, m, rest);
      var least := if leq(x, m) then x else m;
      forall y | y in s
        ensures leq(least, y)
      {
        assert y == x || y in rest;
      }
      assert IsLeast(leq, least, s);
    }
  }

  lemma GreatestExists(s: set<int>)
    requires s != {}
    ensures exists m :: m in s && forall x :: x in s ==> x <= m
  {
    var leq := (a: int, b: int) => b <= a;
    LeastExists(s, leq);
    var m :| IsLeast(leq, m, s);
    assert m in s && forall x :: x in s ==> leq(m, x);
  }

  // ---- Sizes ----

  lemma SubsetIsNoLarger<T>(a: set<T>, b: set<T>)
    requires a <= b
    ensures |a| <= |b|
    ensures |a| == |b| ==> a == b
    ensures a != b ==> |a| < |b|
  {
    assert b == a + (b - a);
    if |b - a| == 0 {
      assert b - a == {};
    }
  }
}
