/**
 * Fractional position keys.
 *
 * The key generator is a library the service only calls, so it appears here by its contract: a
 * generated key lies strictly between its bounds, and a batch is strictly ascending above its lower
 * bound. Keys are ordered like reals, a dense order without end points; every theorem that mentions a
 * `KeyGen` holds for all generators that meet the contract.
 */
module Keys {
  import opened Wrappers
  import Finite

  type Key = real

  predicate Above(k: Key, lo: Option<Key>) {
    lo.Some? ==> lo.value < k
  }

  predicate Below(k: Key, hi: Option<Key>) {
    hi.Some? ==> k < hi.value
  }

  /** The bounds that the generator accepts; it throws on all others. */
  predicate Gap(lo: Option<Key>, hi: Option<Key>) {
    lo.Some? && hi.Some? ==> lo.value < hi.value
  }

  ghost predicate StrictlyBetween(between: (Option<Key>, Option<Key>) -> Key) {
    forall lo, hi :: Gap(lo, hi) ==> Above(between(lo, hi), lo) && Below(between(lo, hi), hi)
  }

  predicate Ascending(ks: seq<Key>) {
    forall i, j :: 0 <= i < j < |ks| ==> ks[i] < ks[j]
  }

  ghost predicate AscendingAfter(after: (Option<Key>, nat) -> seq<Key>) {
    forall lo, n :: && |after(lo, n)| == n
                    && Ascending(after(lo, n))
                    && forall i :: 0 <= i < n ==> Above(after(lo, n)[i], lo)
  }

  /** `between` is one generated key, `after` is a batch above a bound, `length` is the text length of a key. */
  datatype Generator = Generator(
    between: (Option<Key>, Option<Key>) -> Key,
    after: (Option<Key>, nat) -> seq<Key>,
    length: Key -> nat)

  ghost predicate MeetsContract(g: Generator) {
    StrictlyBetween(g.between) && AscendingAfter(g.after)
  }

  function Midpoint(lo: Option<Key>, hi: Option<Key>): Key {
    match (lo, hi)
    case (None, None) => 0.0
    case (Some(l), None) => l + 1.0
    case (None, Some(h)) => h - 1.0
    case (Some(l), Some(h)) => (l + h) / 2.0
  }

  function Count(lo: Option<Key>, n: nat): seq<Key> {
    seq(n, i requires 0 <= i < n => (if lo.Some? then lo.value else 0.0) + 1.0 + i as real)
  }

  const MIDPOINTS := Generator((lo, hi) => Midpoint(lo, hi), (lo, n: nat) => Count(lo, n), k => 1)

  /** The contract can be met, so nothing proved about a `KeyGen` is vacuous. */
  type KeyGen = g: Generator | MeetsContract(g) ghost witness MIDPOINTS

  lemma MinimumExists(s: set<Key>)
    requires s != {}
    ensures exists m :: m in s && forall x :: x in s ==> m <= x
  {
    var leq := (a: Key, b: Key) => a <= b;
    Finite.LeastExists(s, leq);
    var m :| Finite.IsLeast(leq, m, s);
    assert m in s && forall x :: x in s ==> leq(m, x);
  }

  lemma MaximumExists(s: set<Key>)
    requires s != {}
    ensures exists m :: m in s && forall x :: x in s ==> x <= m
  {
    var leq := (a: Key, b: Key) => b <= a;
    Finite.LeastExists(s, leq);
    var m :| Finite.IsLeast(leq, m, s);
    assert m in s && forall x :: x in s ==> leq(m, x);
  }

  /** The least key of a set, if there is one. */
  function Lowest(s: set<Key>): (r: Option<Key>)
    ensures r.None? <==> s == {}
    ensures r.Some? ==> r.value in s && forall x :: x in s ==> r.value <= x
  {
    if s == {} then None
    else
      MinimumExists(s);
      var m :| m in s && forall x :: x in s ==> m <= x;
      Some(m)
  }

  /** The greatest key of a set, if there is one. */
  function Highest(s: set<Key>): (r: Option<Key>)
    ensures r.None? <==> s == {}
    ensures r.Some? ==> r.value in s && forall x :: x in s ==> x <= r.value
  {
    if s == {} then None
    else
      MaximumExists(s);
      var m :| m in s && forall x :: x in s ==> x <= m;
      Some(m)
  }
}
