/**
 * Attachments live in two stores with no common transaction: metadata rows in the database and blobs beside it. Adds,
 * removes and card discards interleave at every await, blob deletes may fail, and a caller may vanish at any point.
 */
module Attachments {
  import Finite

  type Id = nat
  type CardId = nat
  type BlobKey = nat
  type FlightId = nat

  const MAX_ACTIVE := 10

  datatype Row = Row(card: CardId, key: BlobKey, active: bool)

  /** Where an operation is between its awaits. */
  datatype Flight =
    | Stored(card: CardId, key: BlobKey)
    | Publishing(key: BlobKey)
    | Cleaning(key: BlobKey)
    | Dropping(keys: set<BlobKey>)

  /** `cards` maps a card to whether it is archived. */
  datatype Stores = Stores(
    cards: map<CardId, bool>,
    rows: map<Id, Row>,
    blobs: set<BlobKey>,
    flights: map<FlightId, Flight>,
    ghost usedKeys: set<BlobKey>)

  datatype Turn =
    | AddCard(card: CardId)
    | SetArchived(card: CardId, archived: bool)
    | Put(f: FlightId, card: CardId, key: BlobKey)
    | PutFails(key: BlobKey, left: bool)
    | CommitAdd(f: FlightId, id: Id, allowed: bool)
    | Publish(f: FlightId, throws: bool)
    | Clean(f: FlightId, ok: bool)
    | CommitRemove(f: FlightId, id: Id, allowed: bool)
    | CommitDiscard(f: FlightId, card: CardId)
    | DropBlob(f: FlightId, key: BlobKey, ok: bool)
    | Vanish(f: FlightId)

  function ActiveOf(s: Stores, card: CardId): set<Id> {
    set i | i in s.rows && s.rows[i].card == card && s.rows[i].active
  }

  /** Storage keys and row ids are newly generated. */
  ghost predicate Enabled(s: Stores, t: Turn) {
    match t
    case AddCard(card) => card !in s.cards
    case SetArchived(card, _) => card in s.cards
    case Put(f, _, key) => f !in s.flights && key !in s.usedKeys
    case PutFails(key, _) => key !in s.usedKeys
    case CommitAdd(f, id, _) => f in s.flights && s.flights[f].Stored? && id !in s.rows
    case Publish(f, _) => f in s.flights && s.flights[f].Publishing?
    case Clean(f, _) => f in s.flights && s.flights[f].Cleaning?
    case CommitRemove(f, _, _) => f !in s.flights
    case CommitDiscard(f, card) => f !in s.flights && card in s.cards
    case DropBlob(f, key, _) => f in s.flights && s.flights[f].Dropping? && key in s.flights[f].keys
    case Vanish(f) => f in s.flights
  }

  /** In one transaction: the card is there and not archived, the policy allows it, and there is room. */
  function DoCommitAdd(s: Stores, f: FlightId, id: Id, allowed: bool): Stores
    requires f in s.flights && s.flights[f].Stored?
  {
    var flight := s.flights[f];
    if flight.card in s.cards && !s.cards[flight.card] && allowed && |ActiveOf(s, flight.card)| < MAX_ACTIVE then
      s.(rows := s.rows[id := Row(flight.card, flight.key, true)], flights := s.flights[f := Publishing(flight.key)])
    else s.(flights := s.flights[f := Cleaning(flight.key)])
  }

  function DoCommitRemove(s: Stores, f: FlightId, id: Id, allowed: bool): Stores {
    if id in s.rows && s.rows[id].active && s.rows[id].card in s.cards && !s.cards[s.rows[id].card] && allowed then
      s.(rows := s.rows[id := s.rows[id].(active := false)], flights := s.flights[f := Dropping({s.rows[id].key})])
    else s
  }

  function DoCommitDiscard(s: Stores, f: FlightId, card: CardId): Stores {
    var keys := set i | i in s.rows && s.rows[i].card == card :: s.rows[i].key;
    s.(cards := s.cards - {card}, rows := map i | i in s.rows && s.rows[i].card != card :: s.rows[i],
       flights := s.flights[f := Dropping(keys)])
  }

  function DoDropBlob(s: Stores, f: FlightId, key: BlobKey, ok: bool): Stores
    requires f in s.flights && s.flights[f].Dropping?
  {
    s.(blobs := if ok then s.blobs - {key} else s.blobs, flights := s.flights[f := Dropping(s.flights[f].keys - {key})])
  }

  ghost function Do(s: Stores, t: Turn): Stores
    requires Enabled(s, t)
  {
    match t
    case AddCard(card) => s.(cards := s.cards[card := false])
    case SetArchived(card, archived) => s.(cards := s.cards[card := archived])
    case Put(f, card, key) =>
      s.(blobs := s.blobs + {key}, flights := s.flights[f := Stored(card, key)], usedKeys := s.usedKeys + {key})
    case PutFails(key, left) => s.(blobs := if left then s.blobs + {key} else s.blobs, usedKeys := s.usedKeys + {key})
    case CommitAdd(f, id, allowed) => DoCommitAdd(s, f, id, allowed)
    // The hint is published inside the block whose failure deletes the blob.
    case Publish(f, throws) =>
      s.(flights := if throws then s.flights[f := Cleaning(s.flights[f].key)] else s.flights - {f})
    case Clean(f, ok) =>
      s.(blobs := if ok then s.blobs - {s.flights[f].key} else s.blobs, flights := s.flights - {f})
    case CommitRemove(f, id, allowed) => DoCommitRemove(s, f, id, allowed)
    case CommitDiscard(f, card) => DoCommitDiscard(s, f, card)
    case DropBlob(f, key, ok) => DoDropBlob(s, f, key, ok)
    case Vanish(f) => s.(flights := s.flights - {f})
  }

  // ---- The invariant ----

  /** Every committed active row has its blob, but perhaps those with a key in `lost`. */
  ghost predicate Backed(s: Stores, lost: set<BlobKey>) {
    forall i :: i in s.rows && s.rows[i].active && s.rows[i].key !in lost ==> s.rows[i].key in s.blobs
  }

  ghost predicate Capped(s: Stores) {
    forall c :: |ActiveOf(s, c)| <= MAX_ACTIVE
  }

  ghost predicate KeysDistinct(s: Stores) {
    && (forall i :: i in s.rows ==> s.rows[i].key in s.usedKeys)
    && (forall i, j :: i in s.rows && j in s.rows && i != j ==> s.rows[i].key != s.rows[j].key)
  }

  function KeysOf(flight: Flight): set<BlobKey> {
    match flight
    case Stored(_, key) => {key}
    case Publishing(key) => {key}
    case Cleaning(key) => {key}
    case Dropping(keys) => keys
  }

  predicate HeldBy(s: Stores, i: Id, keys: set<BlobKey>) {
    i in s.rows && s.rows[i].key in keys
  }

  /** A key that an add still holds is in no row; a key whose blob may be deleted is in no active row, or lost. */
  ghost predicate FlightFits(s: Stores, flight: Flight, lost: set<BlobKey>) {
    && KeysOf(flight) <= s.usedKeys
    && (flight.Stored? ==> flight.key in s.blobs && forall i :: !HeldBy(s, i, {flight.key}))
    && (flight.Cleaning? || flight.Dropping? ==>
          forall i :: HeldBy(s, i, KeysOf(flight)) ==> !s.rows[i].active || s.rows[i].key in lost)
  }

  ghost predicate FlightsApart(s: Stores) {
    forall f, g :: f in s.flights && g in s.flights && f != g && s.flights[f].Stored? ==>
      s.flights[f].key !in KeysOf(s.flights[g])
  }

  ghost predicate Inv(s: Stores, lost: set<BlobKey>) {
    && Backed(s, lost) && KeysDistinct(s) && FlightsApart(s)
    && forall f :: f in s.flights ==> FlightFits(s, s.flights[f], lost)
  }

  // ---- The cap ----

  lemma CountKept(s: Stores, s': Stores)
    requires Capped(s)
    requires forall i :: i in s'.rows && s'.rows[i].active ==>
               i in s.rows && s.rows[i].active && s.rows[i].card == s'.rows[i].card
    ensures Capped(s')
  {
    forall c
      ensures |ActiveOf(s', c)| <= MAX_ACTIVE
    {
      Finite.SubsetIsNoLarger(ActiveOf(s', c), ActiveOf(s, c));
    }
  }

  lemma RowAdded(s: Stores, s': Stores, id: Id)
    requires Capped(s) && id !in s.rows && id in s'.rows && s'.rows == s.rows[id := s'.rows[id]]
    requires |ActiveOf(s, s'.rows[id].card)| < MAX_ACTIVE
    ensures Capped(s')
  {
    forall c
      ensures |ActiveOf(s', c)| <= MAX_ACTIVE
    {
      Finite.SubsetIsNoLarger(ActiveOf(s', c), ActiveOf(s, c) + {id});
      if c != s'.rows[id].card {
        assert ActiveOf(s', c) == ActiveOf(s, c);
      }
    }
  }

  lemma CapKept(s: Stores, t: Turn)
    requires Capped(s) && Enabled(s, t)
    ensures Capped(Do(s, t))
  {
    if t.CommitAdd? && Do(s, t).rows != s.rows {
      RowAdded(s, Do(s, t), t.id);
    } else {
      CountKept(s, Do(s, t));
    }
  }

  // ---- Every step but one keeps it ----

  /** A hint that throws sends the blob of a committed row, not lost so far, to be deleted. */
  ghost predicate Misfires(s: Stores, t: Turn, lost: set<BlobKey>) {
    && t.Publish? && t.throws && t.f in s.flights
    && exists i :: HeldBy(s, i, KeysOf(s.flights[t.f])) && s.rows[i].active && s.rows[i].key !in lost
  }

  lemma CommitAddKeeps(s: Stores, f: FlightId, id: Id, allowed: bool, lost: set<BlobKey>)
    requires Inv(s, lost) && f in s.flights && s.flights[f].Stored? && id !in s.rows
    ensures Inv(DoCommitAdd(s, f, id, allowed), lost)
  {
    var flight, s' := s.flights[f], DoCommitAdd(s, f, id, allowed);
    assert FlightFits(s, flight, lost);
    forall i | i in s.rows
      ensures s.rows[i].key != flight.key
    {
      assert !HeldBy(s, i, {flight.key});
    }
    forall g | g in s'.flights
      ensures FlightFits(s', s'.flights[g], lost)
    {
      assert FlightFits(s, s.flights[g], lost);
      if g != f {
        OthersStillFit(s, s', s.flights[g], id, flight.key, lost);
      }
    }
  }

  /** A new row with a key of its own changes nothing for flights with other keys. */
  lemma OthersStillFit(s: Stores, s': Stores, flight: Flight, id: Id, key: BlobKey, lost: set<BlobKey>)
    requires FlightFits(s, flight, lost) && key !in KeysOf(flight) && id !in s.rows
    requires s'.blobs == s.blobs && s'.usedKeys == s.usedKeys
    requires s'.rows == s.rows || exists row: Row :: row.key == key && s'.rows == s.rows[id := row]
    ensures FlightFits(s', flight, lost)
  {
    forall i | HeldBy(s', i, KeysOf(flight))
      ensures HeldBy(s, i, KeysOf(flight)) && s'.rows[i] == s.rows[i]
    {
    }
  }

  lemma CommitRemoveKeeps(s: Stores, f: FlightId, id: Id, allowed: bool, lost: set<BlobKey>)
    requires Inv(s, lost) && f !in s.flights
    ensures Inv(DoCommitRemove(s, f, id, allowed), lost)
  {
    var s' := DoCommitRemove(s, f, id, allowed);
    forall g | g in s'.flights
      ensures FlightFits(s', s'.flights[g], lost)
    {
      if g in s.flights {
        assert FlightFits(s, s.flights[g], lost);
        assert forall i :: HeldBy(s', i, KeysOf(s.flights[g])) ==> HeldBy(s, i, KeysOf(s.flights[g]));
      }
    }
    assert forall g :: g in s.flights && s.flights[g].Stored? ==> FlightFits(s, s.flights[g], lost);
    if id in s.rows {
      assert forall g :: g in s.flights && s.flights[g].Stored? ==> !HeldBy(s, id, {s.flights[g].key});
    }
  }

  lemma CommitDiscardKeeps(s: Stores, f: FlightId, card: CardId, lost: set<BlobKey>)
    requires Inv(s, lost) && f !in s.flights
    ensures Inv(DoCommitDiscard(s, f, card), lost)
  {
    var s' := DoCommitDiscard(s, f, card);
    forall g | g in s'.flights
      ensures FlightFits(s', s'.flights[g], lost)
    {
      if g in s.flights {
        assert FlightFits(s, s.flights[g], lost);
        assert forall i :: HeldBy(s', i, KeysOf(s.flights[g])) ==> HeldBy(s, i, KeysOf(s.flights[g]));
      }
    }
    forall g, key | g in s.flights && s.flights[g].Stored? && key in s'.flights[f].keys
      ensures s.flights[g].key != key
    {
      assert FlightFits(s, s.flights[g], lost);
      var i :| i in s.rows && s.rows[i].card == card && s.rows[i].key == key;
      assert !HeldBy(s, i, {s.flights[g].key});
    }
  }

  /** A blob goes that no active row and no pending add needs. */
  lemma BlobGone(s: Stores, s': Stores, f: FlightId, key: BlobKey, lost: set<BlobKey>)
    requires Inv(s, lost) && f in s.flights && (s.flights[f].Cleaning? || s.flights[f].Dropping?) && key in KeysOf(s.flights[f])
    requires s'.rows == s.rows && s'.usedKeys == s.usedKeys && s.blobs - {key} <= s'.blobs
    requires || s'.flights == s.flights - {f}
             || (exists left :: left <= KeysOf(s.flights[f]) && s'.flights == s.flights[f := Dropping(left)])
    ensures Inv(s', lost)
  {
    assert FlightFits(s, s.flights[f], lost);
    forall i | i in s.rows && s.rows[i].active && s.rows[i].key !in lost
      ensures s.rows[i].key != key
    {
      assert !HeldBy(s, i, KeysOf(s.flights[f]));
    }
    forall g | g in s'.flights
      ensures FlightFits(s', s'.flights[g], lost)
    {
      assert FlightFits(s, s.flights[g], lost);
      assert forall i, keys :: HeldBy(s', i, keys) <==> HeldBy(s, i, keys);
    }
  }

  lemma SimpleKeeps(s: Stores, t: Turn, lost: set<BlobKey>)
    requires Inv(s, lost) && Enabled(s, t)
    requires t.AddCard? || t.SetArchived? || t.Vanish? || t.PutFails? || t.Put? || (t.Publish? && !t.throws)
    ensures Inv(Do(s, t), lost)
  {
    var s' := Do(s, t);
    forall g | g in s'.flights
      ensures FlightFits(s', s'.flights[g], lost)
    {
      if g in s.flights {
        assert FlightFits(s, s.flights[g], lost);
      }
      assert forall i, keys :: HeldBy(s', i, keys) <==> HeldBy(s, i, keys);
    }
  }

  lemma ThrowKeepsIff(s: Stores, f: FlightId, lost: set<BlobKey>)
    requires Inv(s, lost) && Enabled(s, Turn.Publish(f, true))
    ensures Inv(Do(s, Turn.Publish(f, true)), lost) <==> !Misfires(s, Turn.Publish(f, true), lost)
  {
    var s' := Do(s, Turn.Publish(f, true));
    assert forall i, keys :: HeldBy(s', i, keys) <==> HeldBy(s, i, keys);
    assert FlightFits(s, s.flights[f], lost);
    if !Misfires(s, Turn.Publish(f, true), lost) {
      forall g | g in s'.flights
        ensures FlightFits(s', s'.flights[g], lost)
      {
        assert FlightFits(s, s.flights[g], lost);
      }
    } else {
      assert !FlightFits(s', s'.flights[f], lost);
    }
  }

  /** The one way to lose the invariant is a hint that throws while its row is active; every other step keeps it. */
  lemma StepKeepsIff(s: Stores, t: Turn, lost: set<BlobKey>)
    requires Inv(s, lost) && Enabled(s, t)
    ensures Inv(Do(s, t), lost) <==> !Misfires(s, t, lost)
  {
    match t
    case CommitAdd(f, id, allowed) => CommitAddKeeps(s, f, id, allowed, lost);
    case CommitRemove(f, id, allowed) => CommitRemoveKeeps(s, f, id, allowed, lost);
    case CommitDiscard(f, card) => CommitDiscardKeeps(s, f, card, lost);
    case Clean(f, ok) => BlobGone(s, Do(s, t), f, s.flights[f].key, lost);
    case DropBlob(f, key, ok) => BlobGone(s, Do(s, t), f, key, lost);
    case Publish(f, throws) => if throws { ThrowKeepsIff(s, f, lost); } else { SimpleKeeps(s, t, lost); }
    case AddCard(_) => SimpleKeeps(s, t, lost);
    case SetArchived(_, _) => SimpleKeeps(s, t, lost);
    case Put(_, _, _) => SimpleKeeps(s, t, lost);
    case PutFails(_, _) => SimpleKeeps(s, t, lost);
    case Vanish(_) => SimpleKeeps(s, t, lost);
  }

  /** The blob keys that a step may lose. */
  ghost function Risked(s: Stores, t: Turn): set<BlobKey> {
    if t.Publish? && t.throws && t.f in s.flights then KeysOf(s.flights[t.f]) else {}
  }

  lemma MoreLost(s: Stores, lost: set<BlobKey>, more: set<BlobKey>)
    requires Inv(s, lost)
    ensures Inv(s, lost + more)
  {
    forall f | f in s.flights
      ensures FlightFits(s, s.flights[f], lost + more)
    {
      assert FlightFits(s, s.flights[f], lost);
    }
  }

  lemma StepKeeps(s: Stores, t: Turn, lost: set<BlobKey>)
    requires Inv(s, lost) && Enabled(s, t)
    ensures Inv(Do(s, t), lost + Risked(s, t))
  {
    MoreLost(s, lost, Risked(s, t));
    StepKeepsIff(s, t, lost + Risked(s, t));
  }

  // ---- Over whole runs ----

  const EMPTY := Stores(map[], map[], {}, map[], {})

  ghost predicate Behaviour(ss: seq<Stores>, turns: seq<Turn>) {
    && |ss| == |turns| + 1 && ss[0] == EMPTY
    && forall i :: 0 <= i < |turns| ==> Enabled(ss[i], turns[i]) && ss[i + 1] == Do(ss[i], turns[i])
  }

  /** No card ever has more than ten active attachments, whatever happens. */
  lemma {:induction false} NeverMoreThanTen(ss: seq<Stores>, turns: seq<Turn>, n: nat)
    requires Behaviour(ss, turns) && n <= |turns|
    ensures forall c :: |ActiveOf(ss[n], c)| <= MAX_ACTIVE
  {
    if n > 0 {
      NeverMoreThanTen(ss, turns, n - 1);
      CapKept(ss[n - 1], turns[n - 1]);
    } else {
      forall c
        ensures ActiveOf(ss[0], c) == {}
      {
      }
    }
  }

  /** The storage keys of the adds whose own hint threw. */
  ghost function Misfired(ss: seq<Stores>, turns: seq<Turn>, n: nat): set<BlobKey>
    requires n <= |turns| < |ss|
  {
    if n == 0 then {} else Misfired(ss, turns, n - 1) + Risked(ss[n - 1], turns[n - 1])
  }

  lemma {:induction false} RunKeeps(ss: seq<Stores>, turns: seq<Turn>, n: nat)
    requires Behaviour(ss, turns) && n <= |turns|
    ensures Inv(ss[n], Misfired(ss, turns, n))
  {
    if n > 0 {
      RunKeeps(ss, turns, n - 1);
      StepKeeps(ss[n - 1], turns[n - 1], Misfired(ss, turns, n - 1));
    }
  }

  lemma {:induction false} MisfiredThrew(ss: seq<Stores>, turns: seq<Turn>, n: nat, key: BlobKey)
    requires Behaviour(ss, turns) && n <= |turns| && key in Misfired(ss, turns, n)
    ensures exists k :: 0 <= k < n && HintThrewAt(ss, turns, k, key)
  {
    if key in Misfired(ss, turns, n - 1) {
      MisfiredThrew(ss, turns, n - 1, key);
    } else {
      assert HintThrewAt(ss, turns, n - 1, key);
    }
  }

  /** Step `k` is the hint of the add that stored under `key`, and it throws. */
  ghost predicate HintThrewAt(ss: seq<Stores>, turns: seq<Turn>, k: int, key: BlobKey)
    requires |ss| == |turns| + 1
  {
    && 0 <= k < |turns| && turns[k].Publish? && turns[k].throws && turns[k].f in ss[k].flights
    && ss[k].flights[turns[k].f] == Publishing(key)
  }

  /** In every state an active row has its blob, unless the hint of its own add threw before. */
  lemma ActiveRowsAreBacked(ss: seq<Stores>, turns: seq<Turn>, n: nat, i: Id)
    requires Behaviour(ss, turns) && n <= |turns| && i in ss[n].rows && ss[n].rows[i].active
    ensures ss[n].rows[i].key in ss[n].blobs || exists k :: 0 <= k < n && HintThrewAt(ss, turns, k, ss[n].rows[i].key)
  {
    RunKeeps(ss, turns, n);
    if ss[n].rows[i].key !in ss[n].blobs {
      MisfiredThrew(ss, turns, n, ss[n].rows[i].key);
    }
  }

  /** With a throwing hint it can be lost: store, commit, throw, and the cleanup deletes the blob of a live row. */
  lemma ThrowingHintLosesBlob()
    ensures exists turns: seq<Turn>, ss: seq<Stores> :: Behaviour(ss, turns) && !Backed(ss[|turns|], {})
  {
    var t0, t1, t2, t3, t4 := AddCard(1), Put(0, 1, 7), CommitAdd(0, 5, true), Turn.Publish(0, true), Clean(0, true);
    var s1 := Do(EMPTY, t0);
    var s2 := Do(s1, t1);
    assert ActiveOf(s2, 1) == {};
    var s3 := Do(s2, t2);
    assert s3.rows == map[5 := Row(1, 7, true)];
    var s4 := Do(s3, t3);
    var s5 := Do(s4, t4);
    assert 5 in s5.rows && s5.rows[5].active && s5.rows[5].key !in s5.blobs;
    var turns, ss := [t0, t1, t2, t3, t4], [EMPTY, s1, s2, s3, s4, s5];
    assert Behaviour(ss, turns);
  }

  // ---- What the operations achieve ----

  /** An add gets its row, over its stored blob, if and only if the card is there, live, open to the actor and has room. */
  lemma AddGoesThroughIff(ss: seq<Stores>, turns: seq<Turn>, n: nat, f: FlightId, id: Id, allowed: bool)
    requires Behaviour(ss, turns) && n < |turns| && turns[n] == CommitAdd(f, id, allowed)
    ensures f in ss[n].flights && ss[n].flights[f].Stored? && id !in ss[n].rows
    ensures var card, key := ss[n].flights[f].card, ss[n].flights[f].key;
            if card in ss[n].cards && !ss[n].cards[card] && allowed && |ActiveOf(ss[n], card)| < MAX_ACTIVE then
              && ss[n + 1].rows == ss[n].rows[id := Row(card, key, true)] && key in ss[n + 1].blobs
              && ActiveOf(ss[n + 1], card) == ActiveOf(ss[n], card) + {id}
            else ss[n + 1].rows == ss[n].rows && ss[n + 1].flights[f] == Cleaning(key)
  {
    RunKeeps(ss, turns, n);
    assert FlightFits(ss[n], ss[n].flights[f], Misfired(ss, turns, n));
  }

  /** An active row goes only by its own removal or with its card, and never changes otherwise. */
  lemma RowsStayUnless(s: Stores, t: Turn, i: Id)
    requires Enabled(s, t) && i in s.rows && s.rows[i].active
    ensures if t.CommitDiscard? && t.card == s.rows[i].card then i !in Do(s, t).rows
            else if t.CommitRemove? && t.id == i && t.allowed && s.rows[i].card in s.cards && !s.cards[s.rows[i].card] then
              Do(s, t).rows == s.rows[i := s.rows[i].(active := false)]
            else i in Do(s, t).rows && Do(s, t).rows[i] == s.rows[i]
  {
  }

  /** A key that an active row, or an operation that still stores or deletes it, accounts for. */
  ghost predicate AccountedFor(s: Stores, key: BlobKey) {
    || (exists i :: HeldBy(s, i, {key}) && s.rows[i].active)
    || (exists f :: HasInHand(s, f, key))
  }

  predicate HasInHand(s: Stores, f: FlightId, key: BlobKey) {
    f in s.flights && !s.flights[f].Publishing? && key in KeysOf(s.flights[f])
  }

  /** The blobs that a step may leave behind: a store or delete that fails, and an operation whose caller vanishes. */
  ghost function LeftBehind(s: Stores, t: Turn): set<BlobKey>
    requires Enabled(s, t)
  {
    match t
    case PutFails(key, left) => if left then {key} else {}
    case Clean(f, ok) => if ok then {} else KeysOf(s.flights[f])
    case DropBlob(_, key, ok) => if ok then {} else {key}
    case Vanish(f) => if s.flights[f].Publishing? then {} else KeysOf(s.flights[f])
    case _ => {}
  }

  ghost predicate NoneForgotten(s: Stores, left: set<BlobKey>) {
    forall key :: key in s.blobs && key !in left ==> AccountedFor(s, key)
  }

  /** Whatever accounted for the blob does so after the step, or hands it on, unless the blob is gone or left behind. */
  lemma StillAccountedFor(s: Stores, t: Turn, key: BlobKey)
    requires Enabled(s, t) && AccountedFor(s, key) && key in Do(s, t).blobs && key !in LeftBehind(s, t)
    ensures AccountedFor(Do(s, t), key)
  {
    if i :| HeldBy(s, i, {key}) && s.rows[i].active {
      RowHandsOn(s, t, key, i);
    } else {
      var f :| HasInHand(s, f, key);
      OperationHandsOn(s, t, key, f);
    }
  }

  lemma RowHandsOn(s: Stores, t: Turn, key: BlobKey, i: Id)
    requires Enabled(s, t) && HeldBy(s, i, {key}) && s.rows[i].active
    ensures AccountedFor(Do(s, t), key)
  {
    var s' := Do(s, t);
    RowsStayUnless(s, t, i);
    if i in s'.rows && s'.rows[i].active {
      assert HeldBy(s', i, {key});
    } else {
      assert HasInHand(s', t.f, key);
    }
  }

  lemma OperationHandsOn(s: Stores, t: Turn, key: BlobKey, f: FlightId)
    requires Enabled(s, t) && HasInHand(s, f, key) && key in Do(s, t).blobs && key !in LeftBehind(s, t)
    ensures AccountedFor(Do(s, t), key)
  {
    var s' := Do(s, t);
    if t.CommitAdd? && t.f == f && t.id in s'.rows {
      assert HeldBy(s', t.id, {key});
    } else {
      assert HasInHand(s', f, key);
    }
  }

  lemma NoneForgottenStep(s: Stores, t: Turn, left: set<BlobKey>)
    requires Enabled(s, t) && NoneForgotten(s, left)
    ensures NoneForgotten(Do(s, t), left + LeftBehind(s, t))
  {
    forall key | key in Do(s, t).blobs && key !in left + LeftBehind(s, t)
      ensures AccountedFor(Do(s, t), key)
    {
      if key in s.blobs {
        StillAccountedFor(s, t, key);
      } else {
        assert t.Put? && HasInHand(Do(s, t), t.f, key);
      }
    }
  }

  ghost function AllLeftBehind(ss: seq<Stores>, turns: seq<Turn>, n: nat): set<BlobKey>
    requires Behaviour(ss, turns) && n <= |turns|
  {
    if n == 0 then {} else AllLeftBehind(ss, turns, n - 1) + LeftBehind(ss[n - 1], turns[n - 1])
  }

  /** In every state each blob has its active row or an operation that will see to it, or was left behind by a failure. */
  lemma {:induction false} NoBlobIsForgotten(ss: seq<Stores>, turns: seq<Turn>, n: nat)
    requires Behaviour(ss, turns) && n <= |turns|
    ensures NoneForgotten(ss[n], AllLeftBehind(ss, turns, n))
  {
    if n > 0 {
      NoBlobIsForgotten(ss, turns, n - 1);
      NoneForgottenStep(ss[n - 1], turns[n - 1], AllLeftBehind(ss, turns, n - 1));
    }
  }
}
