/**
 * Commands as list edits: writing one generated key inserts the card exactly where the command says, whatever
 * hidden or archived cards occupy the gap.
 */
module Placement {
  import opened Wrappers
  import opened Keys
  import opened Domain
  import opened Store
  import opened LaneOrder
  import opened Commands
  import opened Integrity

  /** `list` with `c` taken out and put back directly before `next`, or at the end. */
  function Relisted(list: seq<CardId>, next: Option<CardId>, c: CardId): seq<CardId> {
    InsertBefore(Without(list, c), next, c)
  }

  /** What a successful move writes, and where its key lies among the other keys of the target lane. */
  lemma MoveWrites(x: Ctx, db: Db, id: CardId, input: MoveInput)
    requires WellFormed(db) && Move(x, db, id, input).Success?
    ensures var row := MovedRow(x, db, id, input);
            && Move(x, db, id, input).value.cards == db.cards[id := row]
            && row.id == id && id in db.cards
            && row.lane in db.lanes && db.lanes[row.lane].key == input.to && db.lanes[row.lane].board == db.cards[id].board
            && !StaleNeighbor(db, id, row.lane, input.prev) && !StaleNeighbor(db, id, row.lane, input.next)
            && Gap(NeighborKey(db, input.prev), NeighborKey(db, input.next))
            && Splits(db.cards, row, NeighborKey(db, input.next))
  {
    MoveSplits(x, db, id, input);
  }

  lemma MoveSplits(x: Ctx, db: Db, id: CardId, input: MoveInput)
    requires WellFormed(db) && RefuseMove(x, db, id, input).None?
    ensures Splits(db.cards, MovedRow(x, db, id, input), NeighborKey(db, input.next))
  {
    var lane, next := LaneByKey(db, db.cards[id].board, input.to).value, NeighborKey(db, input.next);
    if input.next.Some? {
      assert db.cards[input.next.value].position in PositionsIn(db.cards, lane, Some(id));
    }
    GapIsFree(x.keyGen, db.cards, lane, next, id);
  }

  /** The row's key is above the other keys of its lane that are below `next`, and below the rest. */
  ghost predicate Splits(cards: map<CardId, Card>, row: Card, next: Option<Key>) {
    forall q :: q in PositionsIn(cards, row.lane, Some(row.id)) ==>
      if Below(q, next) then q < row.position else row.position < q
  }

  lemma MoveIsInsertion(x: Ctx, db: Db, id: CardId, input: MoveInput)
    requires WellFormed(db) && Move(x, db, id, input).Success?
    ensures var cards' := Move(x, db, id, input).value.cards;
            var lane := cards'[id].lane;
            && PositionsDistinct(cards')
            && lane in db.lanes && db.lanes[lane].key == input.to && db.lanes[lane].board == db.cards[id].board
            && LaneList(cards', lane) == Relisted(LaneList(db.cards, lane), input.next, id)
            && (forall other :: other != lane ==> LaneList(cards', other) == Without(LaneList(db.cards, other), id))
  {
    MoveWrites(x, db, id, input);
    var row := MovedRow(x, db, id, input);
    InsertedAt(db.cards, row, input.next, NeighborKey(db, input.next));
    forall other | other != row.lane
      ensures LaneList(db.cards[id := row], other) == Without(LaneList(db.cards, other), id)
    {
      RowLeavesOthers(db.cards, row, other);
    }
  }

  /** A key that splits the rest of the lane at `next` splits its list there too. */
  lemma InsertedAt(cards: map<CardId, Card>, row: Card, next: Option<CardId>, key: Option<Key>)
    requires PositionsDistinct(cards) && Splits(cards, row, key)
    requires next.Some? <==> key.Some?
    requires next.Some? ==> next.value in cards && next.value != row.id && cards[next.value].lane == row.lane
                            && cards[next.value].position == key.value
    ensures PositionsDistinct(cards[row.id := row])
    ensures LaneList(cards[row.id := row], row.lane) == Relisted(LaneList(cards, row.lane), next, row.id)
  {
    var rest := Without(LaneList(cards, row.lane), row.id);
    var ids := CardsIn(cards, row.lane) - {row.id};
    WithoutLists(cards, CardsIn(cards, row.lane), LaneList(cards, row.lane), row.id);
    var k := if next.Some? then IndexOf(rest, next.value) else |rest|;
    SplitIndex(cards, row, ids, rest, next, key, k);
    RowIsInsertion(cards, row, k);
    InsertShape(rest, next, row.id, k);
  }

  lemma InsertShape(rest: seq<CardId>, next: Option<CardId>, c: CardId, k: nat)
    requires k == if next.Some? then IndexOf(rest, next.value) else |rest|
    ensures InsertBefore(rest, next, c) == rest[..k] + [c] + rest[k..]
  {
  }

  lemma SplitIndex(cards: map<CardId, Card>, row: Card, ids: set<CardId>, rest: seq<CardId>,
                   next: Option<CardId>, key: Option<Key>, k: nat)
    requires Splits(cards, row, key) && Lists(cards, ids, rest) && ids == CardsIn(cards, row.lane) - {row.id}
    requires next.Some? <==> key.Some?
    requires next.Some? ==> next.value in ids && cards[next.value].position == key.value
    requires k == if next.Some? then IndexOf(rest, next.value) else |rest|
    ensures k <= |rest|
    ensures forall i :: 0 <= i < k ==> cards[rest[i]].position < row.position
    ensures forall i :: k <= i < |rest| ==> row.position < cards[rest[i]].position
  {
    forall i | 0 <= i < |rest|
      ensures cards[rest[i]].position < row.position <==> i < k
      ensures cards[rest[i]].position != row.position
    {
      SplitAt(cards, row, ids, rest, key, i);
      if next.Some? && i != k {
        assert next.value in rest;
        assert if i < k then cards[rest[i]].position < cards[rest[k]].position
               else cards[rest[k]].position < cards[rest[i]].position;
      }
    }
  }

  lemma SplitAt(cards: map<CardId, Card>, row: Card, ids: set<CardId>, rest: seq<CardId>, key: Option<Key>, i: nat)
    requires Splits(cards, row, key) && ids == CardsIn(cards, row.lane) - {row.id} && i < |rest| && rest[i] in ids
    ensures if Below(cards[rest[i]].position, key) then cards[rest[i]].position < row.position
            else row.position < cards[rest[i]].position
  {
    assert cards[rest[i]].position in PositionsIn(cards, row.lane, Some(row.id));
  }

  /** The card also ends up after the previous neighbour the client named. */
  lemma MoveIsAfterPrev(x: Ctx, db: Db, id: CardId, input: MoveInput)
    requires WellFormed(db) && Move(x, db, id, input).Success? && input.prev.Some?
    ensures var cards' := Move(x, db, id, input).value.cards;
            && input.prev.value in cards' && cards'[input.prev.value].lane == cards'[id].lane
            && cards'[input.prev.value].position < cards'[id].position
  {
    MoveWrites(x, db, id, input);
    var row := MovedRow(x, db, id, input);
    assert db.cards[input.prev.value].position in PositionsIn(db.cards, row.lane, Some(id));
  }

  /** A move is refused for its neighbours only when they are stale or out of order: a live gap always has room. */
  lemma NeighborsRefusedOnlyIfStale(x: Ctx, db: Db, id: CardId, input: MoveInput)
    requires WellFormed(db) && id in db.cards && LaneByKey(db, db.cards[id].board, input.to).Some?
    ensures RefuseMove(x, db, id, input) == Some(Conflicting(StaleNeighbors)) ==>
              var lane := LaneByKey(db, db.cards[id].board, input.to).value;
              || StaleNeighbor(db, id, lane, input.prev)
              || StaleNeighbor(db, id, lane, input.next)
              || (input.prev.Some? && input.next.Some?
                  && db.cards[input.prev.value].position >= db.cards[input.next.value].position)
  {
    var lane, next := LaneByKey(db, db.cards[id].board, input.to).value, NeighborKey(db, input.next);
    if !StaleNeighbor(db, id, lane, input.next) {
      if input.next.Some? {
        assert db.cards[input.next.value].position in PositionsIn(db.cards, lane, Some(id));
      }
      GapIsFree(x.keyGen, db.cards, lane, next, id);
    }
  }

  lemma CreateIsFirst(x: Ctx, db: Db, board: BoardId, input: CreateInput)
    requires WellFormed(db) && Create(x, db, board, input).Success?
    ensures var id := NextCardId(db);
            var cards' := Create(x, db, board, input).value.cards;
            && id !in db.cards && id in cards' && PositionsDistinct(cards')
            && Some(cards'[id].lane) == FirstLane(db, board)
            && LaneList(cards', cards'[id].lane) == [id] + LaneList(db.cards, cards'[id].lane)
            && (forall other :: other != cards'[id].lane ==> LaneList(cards', other) == LaneList(db.cards, other))
  {
    var row := NewCard(x, db, board, FirstLane(db, board).value, input);
    FrontIsFree(x.keyGen, db.cards, row.lane);
    assert Create(x, db, board, input).value.cards == db.cards[row.id := row];
    LandsFirst(db.cards, row);
  }

  lemma LandsFirst(cards: map<CardId, Card>, row: Card)
    requires PositionsDistinct(cards) && row.id !in cards
    requires forall q :: q in PositionsIn(cards, row.lane, None) ==> row.position < q
    ensures PositionsDistinct(cards[row.id := row])
    ensures LaneList(cards[row.id := row], row.lane) == [row.id] + LaneList(cards, row.lane)
    ensures forall other :: other != row.lane ==> LaneList(cards[row.id := row], other) == LaneList(cards, other)
  {
    LandsFirstInLane(cards, row);
    forall other | other != row.lane
      ensures LaneList(cards[row.id := row], other) == LaneList(cards, other)
    {
      NewRowLeavesOthers(cards, row, other);
    }
  }

  lemma LandsFirstInLane(cards: map<CardId, Card>, row: Card)
    requires PositionsDistinct(cards) && row.id !in cards
    requires forall q :: q in PositionsIn(cards, row.lane, None) ==> row.position < q
    ensures PositionsDistinct(cards[row.id := row])
    ensures LaneList(cards[row.id := row], row.lane) == [row.id] + LaneList(cards, row.lane)
  {
    AllAbove(cards, row);
    OnlyRowNew(cards, row);
    var list, ids, cards' := LaneList(cards, row.lane), CardsIn(cards, row.lane), cards[row.id := row];
    FrontLists(cards, ids, list, row);
    assert CardsIn(cards', row.lane) == ids + {row.id};
    OnlyOneOrder(cards', ids + {row.id}, [row.id] + list, LaneList(cards', row.lane));
  }

  lemma AllAbove(cards: map<CardId, Card>, row: Card)
    requires forall q :: q in PositionsIn(cards, row.lane, None) ==> row.position < q
    ensures forall d :: d in CardsIn(cards, row.lane) ==> row.position < cards[d].position
  {
    forall d | d in CardsIn(cards, row.lane)
      ensures row.position < cards[d].position
    {
      assert cards[d].position in PositionsIn(cards, row.lane, None);
    }
  }

  lemma FrontLists(cards: map<CardId, Card>, ids: set<CardId>, list: seq<CardId>, row: Card)
    requires Lists(cards, ids, list) && row.id !in cards && forall d :: d in ids ==> row.position < cards[d].position
    ensures Lists(cards[row.id := row], ids + {row.id}, [row.id] + list)
  {
    PlacedLists(cards, ids, list, row, 0);
    assert list[..0] + [row.id] + list[0..] == [row.id] + list;
  }

  lemma NewRowLeavesOthers(cards: map<CardId, Card>, row: Card, other: LaneId)
    requires PositionsDistinct(cards) && PositionsDistinct(cards[row.id := row]) && row.id !in cards && other != row.lane
    ensures LaneList(cards[row.id := row], other) == LaneList(cards, other)
  {
    RowLeavesOthers(cards, row, other);
    NothingToTake(LaneList(cards, other), row.id);
  }

  lemma {:induction false} NothingToTake(list: seq<CardId>, c: CardId)
    requires c !in list
    ensures Without(list, c) == list
  {
    if list != [] {
      NothingToTake(list[1..], c);
    }
  }

  /** A row at the end of a lane is the last of its list. */
  lemma LandsLastInList(x: Ctx, db: Db, row: Card)
    requires WellFormed(db) && row.id in db.cards
    requires row.position == x.keyGen.between(LastKey(db.cards, row.lane), None)
    ensures PositionsDistinct(db.cards[row.id := row])
    ensures LaneList(db.cards[row.id := row], row.lane) == Without(LaneList(db.cards, row.lane), row.id) + [row.id]
    ensures forall other :: other != row.lane ==>
              LaneList(db.cards[row.id := row], other) == Without(LaneList(db.cards, other), row.id)
  {
    EndIsFree(x.keyGen, db.cards, row.lane);
    OthersAreFewer(db.cards, row.lane, row.id);
    InsertedAt(db.cards, row, None, None);
    forall other | other != row.lane
      ensures LaneList(db.cards[row.id := row], other) == Without(LaneList(db.cards, other), row.id)
    {
      RowLeavesOthers(db.cards, row, other);
    }
  }

  lemma CancelIsLast(x: Ctx, db: Db, id: CardId, resolution: Resolution, version: nat)
    requires WellFormed(db) && Cancel(x, db, id, resolution, version).Success?
    ensures var cards' := Cancel(x, db, id, resolution, version).value.cards;
            var done := cards'[id].lane;
            && PositionsDistinct(cards')
            && done in db.lanes && db.lanes[done].key == Done && db.lanes[done].board == db.cards[id].board
            && LaneList(cards', done) == LaneList(db.cards, done) + [id]
            && (forall other :: other != done ==> LaneList(cards', other) == Without(LaneList(db.cards, other), id))
  {
    var row := CancelledRow(x, db, id, resolution, LaneByKey(db, db.cards[id].board, Done).value);
    CancelWrites(x, db, id, resolution, version);
    LandsLastInList(x, db, row);
    NothingToTake(LaneList(db.cards, row.lane), id);
  }

  /** What a successful cancellation writes: a row at the end of another lane. */
  lemma CancelWrites(x: Ctx, db: Db, id: CardId, resolution: Resolution, version: nat)
    requires WellFormed(db) && Cancel(x, db, id, resolution, version).Success?
    ensures id in db.cards && LaneByKey(db, db.cards[id].board, Done).Some?
    ensures var row := CancelledRow(x, db, id, resolution, LaneByKey(db, db.cards[id].board, Done).value);
            && row.id == id && row.lane != db.cards[id].lane
            && Cancel(x, db, id, resolution, version).value.cards == db.cards[id := row]
  {
  }

  lemma ReopenIsLast(x: Ctx, db: Db, id: CardId, version: nat)
    requires WellFormed(db) && Reopen(x, db, id, version).Success?
    ensures var cards' := Reopen(x, db, id, version).value.cards;
            var lane := cards'[id].lane;
            && PositionsDistinct(cards')
            && Some(lane) == ReopenTarget(db, db.cards[id])
            && LaneList(cards', lane) == Without(LaneList(db.cards, lane), id) + [id]
            && (forall other :: other != lane ==> LaneList(cards', other) == Without(LaneList(db.cards, other), id))
  {
    LandsLastInList(x, db, ReopenedRow(x, db, id));
  }

  // ---- Rebalancing ----

  /**
   * A rebalance leaves what every board reader sees unchanged. In the rewritten lane the archived cards, which
   * keep their keys, come first.
   */
  lemma RebalanceKeepsOrder(x: Ctx, db: Db, lane: LaneId)
    requires WellFormed(db)
    ensures var cards' := Rebalance(x, db, lane).value.cards;
            && PositionsDistinct(cards')
            && (forall l :: ActiveList(cards', l) == ActiveList(db.cards, l))
            && (forall c :: c in db.cards && (db.cards[c].archivedAt.Some? || db.cards[c].lane != lane) ==>
                  c in cards' && cards'[c] == db.cards[c])
            && (Outgrown(x, db, lane) ==> ArchivedLead(cards', lane))
  {
    if Outgrown(x, db, lane) {
      var ids := ActiveList(db.cards, lane);
      var keys := x.keyGen.after(LastKey(db.cards, lane), |ids|);
      FreshBatch(x, db, lane);
      RekeyedKeeps(db.cards, lane, ids, keys);
      var cards' := Rekeyed(db.cards, ids, keys);
      assert Rebalance(x, db, lane).value.cards == cards';
      assert forall c :: c in ids ==> c in ActiveIn(db.cards, lane);
      ArchivedFirst(db.cards, cards', lane, ids, keys);
      SameActiveLists(db.cards, cards', lane, ids, keys);
    }
  }

  /** A pass rewrites something if and only if some live card's key in the lane has grown too long. */
  lemma RebalancesIff(x: Ctx, db: Db, lane: LaneId)
    requires WellFormed(db)
    ensures Rebalance(x, db, lane).Success?
    ensures Rebalance(x, db, lane).value != db <==>
              exists c :: c in ActiveIn(db.cards, lane) && x.keyGen.length(db.cards[c].position) > MAX_KEY_LENGTH
  {
    if c :| c in ActiveIn(db.cards, lane) && x.keyGen.length(db.cards[c].position) > MAX_KEY_LENGTH {
      GetsNewKey(x, db, lane, c);
    }
  }

  lemma GetsNewKey(x: Ctx, db: Db, lane: LaneId, c: CardId)
    requires WellFormed(db) && c in ActiveIn(db.cards, lane)
    ensures var ids := ActiveList(db.cards, lane);
            var cards' := Rekeyed(db.cards, ids, x.keyGen.after(LastKey(db.cards, lane), |ids|));
            c in cards' && cards'[c].position != db.cards[c].position
  {
    var ids := ActiveList(db.cards, lane);
    var keys := x.keyGen.after(LastKey(db.cards, lane), |ids|);
    FreshBatch(x, db, lane);
    RekeyedKeeps(db.cards, lane, ids, keys);
    var i :| 0 <= i < |ids| && ids[i] == c;
    assert db.cards[c].position in PositionsIn(db.cards, lane, None);
  }

  ghost predicate ArchivedLead(cards: map<CardId, Card>, lane: LaneId) {
    forall c, d :: c in cards && d in cards && cards[c].lane == lane && cards[d].lane == lane
                   && cards[c].archivedAt.Some? && cards[d].archivedAt.None? ==>
      cards[c].position < cards[d].position
  }

  lemma SameActiveLists(cards: map<CardId, Card>, cards': map<CardId, Card>, lane: LaneId, ids: seq<CardId>, keys: seq<Key>)
    requires PositionsDistinct(cards) && PositionsDistinct(cards')
    requires ids == ActiveList(cards, lane) && IsRekeyed(cards, cards', ids, keys) && Ascending(keys)
    ensures forall l :: ActiveList(cards', l) == ActiveList(cards, l)
  {
    forall l
      ensures ActiveList(cards', l) == ActiveList(cards, l)
    {
      SameActiveList(cards, cards', lane, ids, keys, l);
    }
  }

  lemma ArchivedFirst(cards: map<CardId, Card>, cards': map<CardId, Card>, lane: LaneId, ids: seq<CardId>, keys: seq<Key>)
    requires PositionsDistinct(cards) && ids == ActiveList(cards, lane) && IsRekeyed(cards, cards', ids, keys)
    requires forall k, q :: 0 <= k < |keys| && q in PositionsIn(cards, lane, None) ==> q < keys[k]
    ensures ArchivedLead(cards', lane)
  {
    forall c, d | c in cards' && d in cards' && cards'[c].lane == lane == cards'[d].lane
                  && cards'[c].archivedAt.Some? && cards'[d].archivedAt.None?
      ensures cards'[c].position < cards'[d].position
    {
      OnlyKeysChange(cards, cards', ids, keys, c);
      OnlyKeysChange(cards, cards', ids, keys, d);
      assert c !in ids && d in ActiveIn(cards, lane);
      var i :| 0 <= i < |ids| && ids[i] == d;
      assert cards[c].position in PositionsIn(cards, lane, None);
    }
  }

  lemma OnlyKeysChange(cards: map<CardId, Card>, cards': map<CardId, Card>, ids: seq<CardId>, keys: seq<Key>, c: CardId)
    requires IsRekeyed(cards, cards', ids, keys) && c in cards
    ensures cards'[c] == cards[c].(position := cards'[c].position)
  {
    if c in ids {
      var i :| 0 <= i < |ids| && ids[i] == c;
    }
  }

  lemma SameActiveList(cards: map<CardId, Card>, cards': map<CardId, Card>, lane: LaneId, ids: seq<CardId>,
                       keys: seq<Key>, l: LaneId)
    requires PositionsDistinct(cards) && PositionsDistinct(cards')
    requires ids == ActiveList(cards, lane) && IsRekeyed(cards, cards', ids, keys) && Ascending(keys)
    ensures ActiveList(cards', l) == ActiveList(cards, l)
  {
    var list := ActiveList(cards, l);
    forall c | c in cards
      ensures cards'[c] == cards[c].(position := cards'[c].position)
    {
      OnlyKeysChange(cards, cards', ids, keys, c);
    }
    assert ActiveIn(cards', l) == ActiveIn(cards, l);
    if l == lane {
      assert Lists(cards', ActiveIn(cards, l), list);
    } else {
      ListsElsewhere(cards, cards', ActiveIn(cards, l), list);
    }
    OnlyOneOrder(cards', ActiveIn(cards, l), list, ActiveList(cards', l));
  }
}
