/**
 * Password attempts of any number of callers, through login and change-password alike: each one waits in its
 * account's queue, asks the backoff, spends time on the hash, and records how it went.
 */
module Attempts {
  import opened Wrappers
  import opened Backoff
  import PromiseChain

  /** `trail` keeps, per account, when the failures since its last success or eviction were recorded. */
  datatype Desk = Desk(now: Time, queues: map<Account, PromiseChain.Chain>, table: Table, ghost trail: map<Account, seq<Time>>)

  datatype Turn =
    | Tick(to: Time)
    | Arrive(a: Account)
    | Gate(a: Account, k: nat)
    | Fail(a: Account, k: nat)
    | Pass(a: Account, k: nat)
    | Break(a: Account, k: nat)
    | Forget(a: Account)

  function Open(now: Time, cap: nat): Desk {
    Desk(now, map[], Table(cap, [], map[]), map[])
  }

  function QueueOf(d: Desk, a: Account): PromiseChain.Chain {
    if a in d.queues then d.queues[a] else PromiseChain.EMPTY
  }

  predicate Enabled(d: Desk, t: Turn) {
    match t
    case Tick(to) => to >= d.now
    case Arrive(_) => true
    case Gate(a, k) => PromiseChain.CanStart(QueueOf(d, a), k)
    case Fail(a, k) => PromiseChain.IsActive(QueueOf(d, a), k)
    case Pass(a, k) => PromiseChain.IsActive(QueueOf(d, a), k)
    case Break(a, k) => PromiseChain.IsActive(QueueOf(d, a), k)
    case Forget(a) => PromiseChain.CanForget(QueueOf(d, a))
  }

  function Settle(d: Desk, a: Account, k: nat): Desk
    requires k < |QueueOf(d, a).stages|
  {
    d.(queues := d.queues[a := PromiseChain.Set(QueueOf(d, a), k, PromiseChain.Settled)])
  }

  ghost function TrailOf(d: Desk, a: Account): seq<Time> {
    if a in d.trail then d.trail[a] else []
  }

  ghost function Failed(d: Desk, a: Account): map<Account, seq<Time>> {
    var out := Evicted(d.table, a);
    (d.trail - (if out.Some? then {out.value} else {}))[a := TrailOf(d, a) + [d.now]]
  }

  function Do(d: Desk, t: Turn): Desk
    requires Enabled(d, t)
  {
    match t
    case Tick(to) => d.(now := to)
    case Arrive(a) => d.(queues := d.queues[a := PromiseChain.Call(QueueOf(d, a))])
    case Gate(a, k) =>
      // Too early is refused at once; otherwise the attempt goes on to the hash.
      if Wait(d.table, a, d.now) > 0 then Settle(d, a, k)
      else d.(queues := d.queues[a := PromiseChain.Set(QueueOf(d, a), k, PromiseChain.Active)])
    case Fail(a, k) => Settle(d.(table := Record(d.table, a, d.now), trail := Failed(d, a)), a, k)
    case Pass(a, k) => Settle(d.(table := Delete(d.table, a), trail := d.trail - {a}), a, k)
    // A database error on the way records nothing.
    case Break(a, k) => Settle(d, a, k)
    case Forget(a) => d.(queues := d.queues[a := PromiseChain.Forget(QueueOf(d, a))])
  }

  // ---- The invariant ----

  ghost predicate Spaced(times: seq<Time>) {
    forall i :: 0 < i < |times| ==> times[i - 1] + Delay(i) <= times[i]
  }

  /** The table entry counts the trail. */
  ghost predicate Counts(entries: map<Account, Entry>, a: Account, times: seq<Time>) {
    if times == [] then a !in entries else a in entries && entries[a] == Entry(|times|, times[|times| - 1])
  }

  /** Whoever is at the hash has been let through, and nothing since can have made it too early. */
  ghost predicate LetThrough(d: Desk, a: Account) {
    forall k :: PromiseChain.IsActive(QueueOf(d, a), k) ==> Wait(d.table, a, d.now) == 0
  }

  ghost predicate Good(d: Desk, a: Account) {
    && PromiseChain.Inv(QueueOf(d, a)) && Spaced(TrailOf(d, a))
    && Counts(d.table.entries, a, TrailOf(d, a)) && LetThrough(d, a)
  }

  ghost predicate Inv(d: Desk) {
    Fit(d.table, d.now) && forall a :: Good(d, a)
  }

  lemma LaterIsLess(t: Table, a: Account, now: Time, later: Time)
    requires now <= later && Wait(t, a, now) == 0
    ensures Wait(t, a, later) == 0
  {
  }

  lemma TickKeeps(d: Desk, to: Time)
    requires Inv(d) && Enabled(d, Tick(to))
    ensures Inv(Do(d, Tick(to)))
  {
    var d' := Do(d, Tick(to));
    forall a
      ensures Good(d', a)
    {
      assert Good(d, a);
      if k :| PromiseChain.IsActive(QueueOf(d, a), k) {
        LaterIsLess(d.table, a, d.now, to);
      }
    }
  }

  /** Steps that change one queue and let nobody through. */
  lemma QueueKeeps(d: Desk, a: Account, q: PromiseChain.Chain)
    requires Inv(d) && PromiseChain.Inv(q)
    requires (forall k :: PromiseChain.IsActive(q, k) ==> PromiseChain.IsActive(QueueOf(d, a), k)) || Wait(d.table, a, d.now) == 0
    ensures Inv(d.(queues := d.queues[a := q]))
  {
    var d' := d.(queues := d.queues[a := q]);
    forall b
      ensures Good(d', b)
    {
      assert Good(d, b);
      assert b != a ==> QueueOf(d', b) == QueueOf(d, b);
    }
  }

  lemma FailKeeps(d: Desk, a: Account, k: nat)
    requires Inv(d) && Enabled(d, Fail(a, k))
    ensures Inv(Do(d, Fail(a, k)))
  {
    RecordKeeps(d.table, a, d.now, d.now);
    forall b
      ensures Good(Do(d, Fail(a, k)), b)
    {
      assert Good(d, b);
      if b == a {
        FailKeepsOwn(d, a, k);
      } else {
        FailKeepsOther(d, a, k, b);
      }
    }
  }

  lemma FailKeepsOwn(d: Desk, a: Account, k: nat)
    requires Good(d, a) && Enabled(d, Fail(a, k))
    ensures Good(Do(d, Fail(a, k)), a)
  {
    PromiseChain.SettleKeeps(QueueOf(d, a), k);
    RecordedEntries(d.table, a, d.now);
    FailureSpaced(TrailOf(d, a), d.table, a, d.now);
  }

  lemma FailKeepsOther(d: Desk, a: Account, k: nat, b: Account)
    requires Good(d, b) && b != a && Enabled(d, Fail(a, k))
    ensures Good(Do(d, Fail(a, k)), b)
  {
    RecordedEntries(d.table, a, d.now);
    assert QueueOf(Do(d, Fail(a, k)), b) == QueueOf(d, b);
  }

  lemma FailureSpaced(times: seq<Time>, t: Table, a: Account, now: Time)
    requires Spaced(times) && Counts(t.entries, a, times) && Wait(t, a, now) == 0
    ensures Spaced(times + [now])
  {
  }

  lemma PassKeeps(d: Desk, a: Account, k: nat)
    requires Inv(d) && Enabled(d, Pass(a, k))
    ensures Inv(Do(d, Pass(a, k)))
  {
    assert Good(d, a);
    PromiseChain.SettleKeeps(QueueOf(d, a), k);
    DeleteKeeps(d.table, a, d.now);
    var d' := Do(d, Pass(a, k));
    forall b
      ensures Good(d', b)
    {
      assert Good(d, b);
      assert b != a ==> QueueOf(d', b) == QueueOf(d, b);
    }
  }

  lemma StepKeeps(d: Desk, t: Turn)
    requires Inv(d) && Enabled(d, t)
    ensures Inv(Do(d, t))
  {
    match t
    case Tick(to) => TickKeeps(d, to);
    case Arrive(a) =>
      assert Good(d, a);
      PromiseChain.CallKeeps(QueueOf(d, a));
      QueueKeeps(d, a, PromiseChain.Call(QueueOf(d, a)));
    case Gate(a, k) =>
      assert Good(d, a);
      var s := if Wait(d.table, a, d.now) > 0 then PromiseChain.Settled else PromiseChain.Active;
      PromiseChain.StartKeeps(QueueOf(d, a), k, s);
      QueueKeeps(d, a, PromiseChain.Set(QueueOf(d, a), k, s));
    case Fail(a, k) => FailKeeps(d, a, k);
    case Pass(a, k) => PassKeeps(d, a, k);
    case Break(a, k) =>
      assert Good(d, a);
      PromiseChain.SettleKeeps(QueueOf(d, a), k);
      QueueKeeps(d, a, PromiseChain.Set(QueueOf(d, a), k, PromiseChain.Settled));
    case Forget(a) =>
      assert Good(d, a);
      PromiseChain.ForgetKeeps(QueueOf(d, a));
      QueueKeeps(d, a, PromiseChain.Forget(QueueOf(d, a)));
  }

  // ---- Over whole runs ----

  ghost predicate Behaviour(ds: seq<Desk>, turns: seq<Turn>, now: Time, cap: nat) {
    && |ds| == |turns| + 1 && ds[0] == Open(now, cap)
    && forall i :: 0 <= i < |turns| ==> Enabled(ds[i], turns[i]) && ds[i + 1] == Do(ds[i], turns[i])
  }

  lemma {:induction false} BehaviourKeeps(ds: seq<Desk>, turns: seq<Turn>, now: Time, cap: nat, i: nat)
    requires Behaviour(ds, turns, now, cap) && i <= |turns|
    ensures Inv(ds[i])
  {
    if i > 0 {
      BehaviourKeeps(ds, turns, now, cap, i - 1);
      StepKeeps(ds[i - 1], turns[i - 1]);
    }
  }

  lemma {:induction false} SpacedFromFirst(times: seq<Time>, n: nat)
    requires Spaced(times) && n < |times|
    ensures times[0] + Least(n) <= times[n]
  {
    if n > 0 {
      SpacedFromFirst(times, n - 1);
    }
  }

  /**
   * However many guesses arrive at once and wherever: the n-th failure after the first is recorded no earlier than
   * the sum of n delays after it, which from the seventh failure on is 63 s and 60 s more for each.
   */
  lemma FailuresTakeTime(ds: seq<Desk>, turns: seq<Turn>, now: Time, cap: nat, i: nat, a: Account, n: nat)
    requires Behaviour(ds, turns, now, cap) && i <= |turns| && n < |TrailOf(ds[i], a)|
    ensures TrailOf(ds[i], a)[0] + Least(n) <= TrailOf(ds[i], a)[n]
    ensures n >= 6 ==> TrailOf(ds[i], a)[0] + 63000 + 60000 * (n - 6) <= TrailOf(ds[i], a)[n]
  {
    BehaviourKeeps(ds, turns, now, cap, i);
    assert Good(ds[i], a);
    SpacedFromFirst(TrailOf(ds[i], a), n);
    LeastInClosedForm(n);
  }

  /** The trail of an account is lost only to a success or to an eviction as the oldest of a full table. */
  lemma TrailEndsOnlyBy(ds: seq<Desk>, turns: seq<Turn>, now: Time, cap: nat, i: nat, a: Account)
    requires Behaviour(ds, turns, now, cap) && i < |turns| && cap > 0
    ensures var before, after := TrailOf(ds[i], a), TrailOf(ds[i + 1], a);
            || before <= after
            || (turns[i].Pass? && turns[i].a == a && after == [])
            || (turns[i].Fail? && Evicted(ds[i].table, turns[i].a) == Some(a) && after == []
                && |ds[i].table.order| == cap && IsOldest(ds[i].table.entries, a))
    ensures |ds[i + 1].table.entries| <= cap
  {
    BehaviourKeeps(ds, turns, now, cap, i);
    BehaviourKeeps(ds, turns, now, cap, i + 1);
    CapStays(ds, turns, now, cap, i);
    CapStays(ds, turns, now, cap, i + 1);
    KeysCounted(ds[i + 1].table, ds[i + 1].now);
    if turns[i].Fail? {
      EvictsOldestOnly(ds[i].table, turns[i].a, ds[i].now);
    }
  }

  lemma {:induction false} CapStays(ds: seq<Desk>, turns: seq<Turn>, now: Time, cap: nat, i: nat)
    requires Behaviour(ds, turns, now, cap) && i <= |turns|
    ensures ds[i].table.cap == cap
  {
    if i > 0 {
      CapStays(ds, turns, now, cap, i - 1);
    }
  }

  /** The account may try: it has no failure on its trail, or the delay for as many has passed since the last one. */
  ghost predicate MayTry(times: seq<Time>, now: Time) {
    times != [] ==> times[|times| - 1] + Delay(|times|) <= now
  }

  /** Whoever has its turn gets to the hash if and only if its account may try, and is refused at once otherwise. */
  lemma GateOpensIff(ds: seq<Desk>, turns: seq<Turn>, now: Time, cap: nat, i: nat, a: Account, k: nat)
    requires Behaviour(ds, turns, now, cap) && i < |turns| && turns[i] == Gate(a, k)
    ensures k < |QueueOf(ds[i + 1], a).stages|
    ensures QueueOf(ds[i + 1], a).stages[k] ==
              if MayTry(TrailOf(ds[i], a), ds[i].now) then PromiseChain.Active else PromiseChain.Settled
    ensures ds[i + 1].table == ds[i].table && ds[i + 1].trail == ds[i].trail
  {
    BehaviourKeeps(ds, turns, now, cap, i);
    assert Good(ds[i], a);
  }

  /** A wrong password is on record at once and a right one clears the record; no other step of the account does either. */
  lemma TrailTells(ds: seq<Desk>, turns: seq<Turn>, now: Time, cap: nat, i: nat, a: Account)
    requires Behaviour(ds, turns, now, cap) && i < |turns| && cap > 0
    ensures var before, after := TrailOf(ds[i], a), TrailOf(ds[i + 1], a);
            match turns[i]
            case Fail(b, _) =>
              if b == a then after == before + [ds[i].now]
              else after == if Evicted(ds[i].table, b) == Some(a) then [] else before
            case Pass(b, _) => after == if b == a then [] else before
            case _ => after == before
    ensures turns[i].Fail? || turns[i].Pass? ==>
              && turns[i].k < |QueueOf(ds[i + 1], turns[i].a).stages|
              && QueueOf(ds[i + 1], turns[i].a).stages[turns[i].k] == PromiseChain.Settled
  {
    if turns[i].Fail? {
      BehaviourKeeps(ds, turns, now, cap, i);
      CapStays(ds, turns, now, cap, i);
      EvictsOldestOnly(ds[i].table, turns[i].a, ds[i].now);
    }
  }
}
