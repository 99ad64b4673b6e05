/** The login backoff: how long an account must wait, and the bounded table that remembers its failures. */
module Backoff {
  import opened Wrappers
  import Domain

  type Account = string
  type Time = int

  const BASE_MS := 1000
  const CAP_MS := 60000

  function Pow2(n: nat): nat {
    if n == 0 then 1 else 2 * Pow2(n - 1)
  }

  function Delay(failures: int): int {
    if failures <= 0 then 0
    else if BASE_MS * Pow2(failures - 1) < CAP_MS then BASE_MS * Pow2(failures - 1)
    else CAP_MS
  }

  /** The least time between the first failure and the n-th one after it. */
  function Least(n: nat): int {
    if n == 0 then 0 else Least(n - 1) + Delay(n)
  }

  lemma {:induction false} Pow2Grows(m: nat, n: nat)
    requires m <= n
    ensures Pow2(m) <= Pow2(n)
    decreases n
  {
    if m < n {
      Pow2Grows(m, n - 1);
    }
  }

  /** 63 s up to the seventh failure, and 60 s for each one from then on. */
  lemma {:induction false} LeastInClosedForm(n: nat)
    ensures Least(n) == if n <= 6 then BASE_MS * (Pow2(n) - 1) else 63000 + CAP_MS * (n - 6)
  {
    if n > 0 {
      LeastInClosedForm(n - 1);
      if n <= 6 {
        Pow2Grows(n - 1, 5);
        assert Pow2(5) == 32 by {
          assert Pow2(3) == 8;
        }
      } else {
        Pow2Grows(6, n - 1);
        assert Pow2(6) == 64 by {
          assert Pow2(3) == 8;
        }
      }
    }
  }

  datatype Entry = Entry(failures: nat, lastAt: Time)

  /** `order` is the insertion order of the keys. */
  datatype Table = Table(cap: nat, order: seq<Account>, entries: map<Account, Entry>)

  function Wait(t: Table, a: Account, now: Time): (ms: int)
    ensures ms >= 0
  {
    if a !in t.entries then 0
    else
      var readyAt := t.entries[a].lastAt + Delay(t.entries[a].failures);
      if readyAt > now then readyAt - now else 0
  }

  function Drop(order: seq<Account>, a: Account): seq<Account> {
    if order == [] then [] else (if order[0] == a then [] else [order[0]]) + Drop(order[1..], a)
  }

  function Delete(t: Table, a: Account): Table {
    t.(order := Drop(t.order, a), entries := t.entries - {a})
  }

  /** The key that a failure of `a` pushes out. */
  function Evicted(t: Table, a: Account): Option<Account> {
    var rest := Delete(t, a);
    if |rest.order| >= t.cap && rest.order != [] then Some(rest.order[0]) else None
  }

  /** The table with a free place at the end. */
  function Room(t: Table, a: Account): Table {
    var out := Evicted(t, a);
    if out.Some? then Delete(Delete(t, a), out.value) else Delete(t, a)
  }

  function Add(t: Table, a: Account, e: Entry): Table {
    t.(order := t.order + [a], entries := t.entries[a := e])
  }

  function Record(t: Table, a: Account, now: Time): Table {
    Add(Room(t, a), a, Entry((if a in t.entries then t.entries[a].failures else 0) + 1, now))
  }

  function LastAt(entries: map<Account, Entry>, a: Account): Time {
    if a in entries then entries[a].lastAt else 0
  }

  /** Each key once, and an older last failure before a newer one. */
  ghost predicate ByAge(order: seq<Account>, entries: map<Account, Entry>) {
    forall i, j :: 0 <= i < j < |order| ==> order[i] != order[j] && LastAt(entries, order[i]) <= LastAt(entries, order[j])
  }

  ghost predicate SameKeys(order: seq<Account>, entries: map<Account, Entry>) {
    forall a :: a in order <==> a in entries
  }

  ghost predicate Past(entries: map<Account, Entry>, now: Time) {
    forall a :: a in entries ==> entries[a].failures > 0 && entries[a].lastAt <= now
  }

  ghost predicate Fit(t: Table, now: Time) {
    ByAge(t.order, t.entries) && SameKeys(t.order, t.entries) && Past(t.entries, now) && (|t.order| <= t.cap || |t.order| <= 1)
  }

  lemma {:induction false} DropDrops(order: seq<Account>, entries: map<Account, Entry>, a: Account)
    requires ByAge(order, entries)
    ensures var rest := Drop(order, a);
            && (forall b :: b in rest <==> b in order && b != a)
            && |rest| == |order| - (if a in order then 1 else 0)
            && ByAge(rest, entries)
    decreases |order|
  {
    if order != [] {
      var tail := order[1..];
      DropDrops(tail, entries, a);
      assert order == [order[0]] + tail;
      forall b | b in tail
        ensures order[0] != b && LastAt(entries, order[0]) <= LastAt(entries, b)
      {
        var i :| 0 <= i < |tail| && tail[i] == b;
        assert order[i + 1] == b;
      }
    }
  }

  lemma DeleteKeeps(t: Table, a: Account, now: Time)
    requires Fit(t, now)
    ensures Fit(Delete(t, a), now)
    ensures |Delete(t, a).order| == |t.order| - (if a in t.entries then 1 else 0)
  {
    DropDrops(t.order, t.entries, a);
  }

  lemma RoomKeeps(t: Table, a: Account, now: Time)
    requires Fit(t, now)
    ensures Fit(Room(t, a), now) && a !in Room(t, a).entries && Room(t, a).cap == t.cap
    ensures |Room(t, a).order| < t.cap || Room(t, a).order == []
  {
    DeleteKeeps(t, a, now);
    var rest, out := Delete(t, a), Evicted(t, a);
    if out.Some? {
      assert out.value in rest.order;
      DeleteKeeps(rest, out.value, now);
    }
  }

  lemma AddKeeps(t: Table, a: Account, e: Entry, before: Time)
    requires Fit(t, before) && a !in t.entries && (|t.order| < t.cap || t.order == [])
    requires e.failures > 0 && before <= e.lastAt
    ensures Fit(Add(t, a, e), e.lastAt)
  {
    forall i | 0 <= i < |t.order|
      ensures t.order[i] != a && t.order[i] in t.entries
    {
      assert t.order[i] in t.order;
    }
  }

  /** Recording a failure keeps the table in order and bounded; with room for one entry, by the cap. */
  lemma RecordKeeps(t: Table, a: Account, before: Time, now: Time)
    requires Fit(t, before) && before <= now
    ensures Fit(Record(t, a, now), now) && Record(t, a, now).cap == t.cap
    ensures t.cap > 0 ==> |Record(t, a, now).entries| <= t.cap
  {
    RoomKeeps(t, a, before);
    AddKeeps(Room(t, a), a, Entry((if a in t.entries then t.entries[a].failures else 0) + 1, now), before);
    KeysCounted(Record(t, a, now), now);
  }

  lemma KeysCounted(t: Table, now: Time)
    requires Fit(t, now)
    ensures |t.entries| == |t.order|
  {
    AsManyKeys(t.order, t.entries);
  }

  lemma {:induction false} AsManyKeys(order: seq<Account>, entries: map<Account, Entry>)
    requires forall a :: a in order <==> a in entries
    requires forall i, j :: 0 <= i < j < |order| ==> order[i] != order[j]
    ensures |entries| == |order|
    decreases |order|
  {
    if order != [] {
      var n := |order| - 1;
      var rest := entries - {order[n]};
      assert order == order[..n] + [order[n]];
      AsManyKeys(order[..n], rest);
      assert entries.Keys == rest.Keys + {order[n]};
      assert |entries.Keys| == |rest.Keys| + 1;
    } else {
      assert entries.Keys == {};
    }
  }

  lemma {:induction false} NothingToDrop(order: seq<Account>, a: Account)
    requires a !in order
    ensures Drop(order, a) == order
    decreases |order|
  {
    if order != [] {
      NothingToDrop(order[1..], a);
    }
  }

  /** Only a new account pushes one out, only when the table is full, and then the one whose last failure is oldest. */
  lemma EvictsOldestOnly(t: Table, a: Account, before: Time)
    requires Fit(t, before) && t.cap > 0
    ensures var out := Evicted(t, a);
            && (out.Some? <==> a !in t.entries && |t.order| == t.cap)
            && (out.Some? ==> out.value in t.entries && out.value != a && IsOldest(t.entries, out.value))
  {
    DropDrops(t.order, t.entries, a);
    if a !in t.entries {
      NothingToDrop(t.order, a);
      if t.order != [] {
        FirstIsOldest(t, before);
      }
    }
  }

  ghost predicate IsOldest(entries: map<Account, Entry>, a: Account) {
    a in entries && forall b :: b in entries ==> entries[a].lastAt <= entries[b].lastAt
  }

  lemma FirstIsOldest(t: Table, now: Time)
    requires Fit(t, now) && t.order != []
    ensures IsOldest(t.entries, t.order[0])
  {
    forall b | b in t.entries
      ensures LastAt(t.entries, t.order[0]) <= LastAt(t.entries, b)
    {
      assert b in t.order;
      var i :| 0 <= i < |t.order| && t.order[i] == b;
    }
    assert t.order[0] in t.order;
  }

  /** Recording touches no entry but its own and the evicted one. */
  lemma RecordedEntries(t: Table, a: Account, now: Time)
    ensures var out := Evicted(t, a);
            Record(t, a, now).entries ==
              (t.entries - (if out.Some? then {out.value} else {}))
                [a := Entry((if a in t.entries then t.entries[a].failures else 0) + 1, now)]
  {
  }

  /** The account has no failure on record, or its delay has passed since the last one. */
  predicate Rested(t: Table, a: Account, at: Time) {
    a in t.entries ==> at - t.entries[a].lastAt >= Delay(t.entries[a].failures)
  }

  class LoginBackoff {
    const cap: nat
    var order: seq<Account>
    var entries: map<Account, Entry>

    function State(): Table
      reads this
    {
      Table(cap, order, entries)
    }

    constructor (cap: nat)
      ensures State() == Table(cap, [], map[])
    {
      this.cap := cap;
      order, entries := [], map[];
    }

    /** From `now` on attempts are let through exactly once the answer has passed; it is at most a minute. */
    method RetryAfterMs(account: string, now: Time) returns (ms: int)
      ensures ms == Wait(State(), Domain.Fold(account), now)
      ensures ms >= 0 && forall later :: now <= later ==> (Rested(State(), Domain.Fold(account), later) <==> now + ms <= later)
      ensures (Domain.Fold(account) in entries ==> entries[Domain.Fold(account)].lastAt <= now) ==> ms <= CAP_MS
    {
      if Domain.Fold(account) !in entries {
        return 0;
      }
      var entry := entries[Domain.Fold(account)];
      var readyAt := entry.lastAt + Delay(entry.failures);
      ms := if readyAt - now > 0 then readyAt - now else 0;
    }

    method Remove(key: Account)
      modifies this
      ensures State() == Delete(old(State()), key)
    {
      order := Drop(order, key);
      entries := entries - {key};
    }

    method RecordFailure(account: string, now: Time)
      modifies this
      ensures State() == Record(old(State()), Domain.Fold(account), now)
    {
      var key, failures := Domain.Fold(account), 0;
      if key in entries {
        failures := entries[key].failures;
      }
      Remove(key);
      if |order| >= cap {
        if order != [] {
          Remove(order[0]);
        }
      }
      order := order + [key];
      entries := entries[key := Entry(failures + 1, now)];
    }

    method Reset(account: string)
      modifies this
      ensures State() == Delete(old(State()), Domain.Fold(account))
    {
      Remove(Domain.Fold(account));
    }
  }
}
