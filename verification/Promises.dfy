/** What each command promises its caller about the lane lists, the versions and the trails, on top of its specification. */
module Promises {
  import opened Wrappers
  import opened Domain
  import opened Store
  import opened LaneOrder
  import opened Commands
  import opened Placement
  import opened Records
  import opened Trails
  import opened Writes

  ghost predicate TrailsKept(before: Db, after: Db) {
    AllTraced(before) ==> AllTraced(after)
  }

  ghost predicate Listable(before: Db, after: Db) {
    PositionsDistinct(before.cards) && PositionsDistinct(after.cards)
  }

  /** The card's lane reads `list` now, and every other lane has only lost the card. */
  ghost predicate Placed(before: Db, after: Db, id: CardId, list: seq<CardId>) {
    && Listable(before, after) && id in after.cards
    && LaneList(after.cards, after.cards[id].lane) == list
    && forall other :: other != after.cards[id].lane ==>
         LaneList(after.cards, other) == Without(LaneList(before.cards, other), id)
  }

  /** The card states the next version, in a lane of its board with this key. */
  predicate Advanced(before: Db, after: Db, id: CardId, version: nat, key: LaneKey) {
    && id in before.cards && id in after.cards && before.cards[id].version == version && after.cards[id].version == version + 1
    && after.cards[id].board == before.cards[id].board
    && after.cards[id].lane in after.lanes && after.lanes[after.cards[id].lane].key == key
  }

  // ---- Creation ----

  ghost predicate CreatedOnTop(before: Db, after: Db, id: CardId) {
    && Listable(before, after) && id !in before.cards && id in after.cards && after.cards[id].version == 1
    && LaneList(after.cards, after.cards[id].lane) == [id] + LaneList(before.cards, after.cards[id].lane)
    && forall other :: other != after.cards[id].lane ==> LaneList(after.cards, other) == LaneList(before.cards, other)
  }

  lemma CreatePromise(x: Ctx, db: Db, board: BoardId, input: CreateInput)
    requires WellFormed(db) && Create(x, db, board, input).Success?
    ensures CreatedOnTop(db, Create(x, db, board, input).value, NextCardId(db))
    ensures CreatedAsAsked(db, Create(x, db, board, input).value, NextCardId(db), board, input, x.now)
    ensures TrailsKept(db, Create(x, db, board, input).value)
  {
    CreateIsFirst(x, db, board, input);
    CreateStores(x, db, board, input);
    if AllTraced(db) {
      CreateTraced(x, db, board, input);
    }
  }

  // ---- Commands that place the card ----

  lemma MoveAdvances(x: Ctx, db: Db, id: CardId, input: MoveInput)
    requires WellFormed(db) && Move(x, db, id, input).Success?
    ensures Advanced(db, Move(x, db, id, input).value, id, input.expectedVersion, input.to)
  {
  }

  ghost predicate MovedTo(before: Db, after: Db, id: CardId, input: MoveInput) {
    && Listable(before, after) && id in after.cards
    && Placed(before, after, id, Relisted(LaneList(before.cards, after.cards[id].lane), input.next, id))
  }

  lemma MovePromise(x: Ctx, db: Db, id: CardId, input: MoveInput)
    requires WellFormed(db) && Move(x, db, id, input).Success?
    ensures MovedTo(db, Move(x, db, id, input).value, id, input)
  {
    MoveWrites(x, db, id, input);
    MoveIsInsertion(x, db, id, input);
  }

  lemma CancelAdvances(x: Ctx, db: Db, id: CardId, resolution: Resolution, version: nat)
    requires WellFormed(db) && Cancel(x, db, id, resolution, version).Success?
    ensures Advanced(db, Cancel(x, db, id, resolution, version).value, id, version, Done)
  {
  }

  ghost predicate LandedLast(before: Db, after: Db, id: CardId) {
    && Listable(before, after) && id in after.cards
    && Placed(before, after, id, Without(LaneList(before.cards, after.cards[id].lane), id) + [id])
  }

  lemma RowLandsLast(x: Ctx, db: Db, db': Db, row: Card)
    requires WellFormed(db) && row.id in db.cards && db'.cards == db.cards[row.id := row]
    requires row.position == x.keyGen.between(LastKey(db.cards, row.lane), None)
    ensures LandedLast(db, db', row.id)
  {
    LandsLastInList(x, db, row);
  }

  lemma CancelPromise(x: Ctx, db: Db, id: CardId, resolution: Resolution, version: nat)
    requires WellFormed(db) && Cancel(x, db, id, resolution, version).Success?
    ensures LandedLast(db, Cancel(x, db, id, resolution, version).value, id)
  {
    RowLandsLast(x, db, Cancel(x, db, id, resolution, version).value,
                 CancelledRow(x, db, id, resolution, LaneByKey(db, db.cards[id].board, Done).value));
  }

  lemma ReopenAdvances(x: Ctx, db: Db, id: CardId, version: nat)
    requires WellFormed(db) && Reopen(x, db, id, version).Success?
    ensures var lane := ReopenTarget(db, db.cards[id]).value;
            Advanced(db, Reopen(x, db, id, version).value, id, version, db.lanes[lane].key)
  {
  }

  lemma ReopenPromise(x: Ctx, db: Db, id: CardId, version: nat)
    requires WellFormed(db) && Reopen(x, db, id, version).Success?
    ensures LandedLast(db, Reopen(x, db, id, version).value, id)
  {
    RowLandsLast(x, db, Reopen(x, db, id, version).value, ReopenedRow(x, db, id));
  }

  // ---- Commands that leave the card in its place ----

  /** Every lane reads as before, and no other row has changed. */
  ghost predicate StaysPut(before: Db, after: Db, id: CardId) {
    && Listable(before, after) && id in after.cards && after.cards == before.cards[id := after.cards[id]]
    && forall l :: LaneList(after.cards, l) == LaneList(before.cards, l)
  }

  lemma SameLists(cards: map<CardId, Card>, row: Card)
    requires PositionsDistinct(cards) && row.id in cards
    requires row.lane == cards[row.id].lane && row.position == cards[row.id].position
    ensures PositionsDistinct(cards[row.id := row])
    ensures forall l :: LaneList(cards[row.id := row], l) == LaneList(cards, l)
  {
    var cards' := cards[row.id := row];
    forall l
      ensures LaneList(cards', l) == LaneList(cards, l)
    {
      assert CardsIn(cards', l) == CardsIn(cards, l);
      assert Lists(cards', CardsIn(cards', l), LaneList(cards, l));
      OnlyOneOrder(cards', CardsIn(cards', l), LaneList(cards', l), LaneList(cards, l));
    }
  }

  lemma InPlacePromise(db: Db, db': Db, row: Card)
    requires PositionsDistinct(db.cards) && row.id in db.cards && db'.cards == db.cards[row.id := row]
    requires row.lane == db.cards[row.id].lane && row.position == db.cards[row.id].position
    ensures StaysPut(db, db', row.id)
  {
    SameLists(db.cards, row);
  }

  lemma UpdatePromise(x: Ctx, db: Db, id: CardId, input: UpdateInput)
    requires WellFormed(db) && Update(x, db, id, input).Success?
    ensures StaysPut(db, Update(x, db, id, input).value, id)
    ensures EditedAsAsked(db, Update(x, db, id, input).value, id, input, x.now)
    ensures TrailsKept(db, Update(x, db, id, input).value)
  {
    UpdateStores(x, db, id, input);
    var draft := EditAll(db, id, input);
    InPlacePromise(db, Update(x, db, id, input).value, if draft.bodies == [] then db.cards[id] else Edited(draft.card, x.now));
    if AllTraced(db) {
      UpdateTraced(x, db, id, input);
    }
  }

  lemma ArchivePromise(x: Ctx, db: Db, id: CardId, version: nat)
    requires WellFormed(db) && Archive(x, db, id, version).Success?
    ensures StaysPut(db, Archive(x, db, id, version).value, id)
    ensures ArchivedAt(db, Archive(x, db, id, version).value, id, x.now)
    ensures TrailsKept(db, Archive(x, db, id, version).value)
  {
    ArchiveStores(x, db, id, version);
    InPlacePromise(db, Archive(x, db, id, version).value, ArchivedRow(db.cards[id], x.now));
    if AllTraced(db) {
      ArchiveTraced(x, db, id, version);
    }
  }

  lemma SetBlockedPromise(x: Ctx, db: Db, id: CardId, reason: Option<string>, version: nat)
    requires WellFormed(db) && SetBlocked(x, db, id, reason, version).Success?
    ensures StaysPut(db, SetBlocked(x, db, id, reason, version).value, id)
    ensures BlockedAsAsked(db, SetBlocked(x, db, id, reason, version).value, id, reason, x.now)
    ensures TrailsKept(db, SetBlocked(x, db, id, reason, version).value)
  {
    SetBlockedStores(x, db, id, reason, version);
    InPlacePromise(db, SetBlocked(x, db, id, reason, version).value, BlockedRow(db.cards[id], reason, x.now));
    if AllTraced(db) {
      SetBlockedTraced(x, db, id, reason, version);
    }
  }

  // ---- Discard ----

  /** The card is gone from its lane and from every table. */
  ghost predicate DiscardedFrom(before: Db, after: Db, id: CardId) {
    && Listable(before, after) && id !in after.cards && id !in after.log && id !in after.cardTags
    && forall l :: LaneList(after.cards, l) == Without(LaneList(before.cards, l), id)
  }

  lemma DiscardPromise(x: Ctx, db: Db, id: CardId, version: nat)
    requires WellFormed(db) && Discard(x, db, id, version).Success?
    ensures DiscardedFrom(db, Discard(x, db, id, version).value, id)
    ensures TrailsKept(db, Discard(x, db, id, version).value)
  {
    RowGone(db.cards, id);
    if AllTraced(db) {
      DiscardTraced(x, db, id, version);
    }
  }

  lemma RowGone(cards: map<CardId, Card>, id: CardId)
    requires PositionsDistinct(cards)
    ensures PositionsDistinct(cards - {id})
    ensures forall l :: LaneList(cards - {id}, l) == Without(LaneList(cards, l), id)
  {
    forall l
      ensures LaneList(cards - {id}, l) == Without(LaneList(cards, l), id)
    {
      WithoutLists(cards, CardsIn(cards, l), LaneList(cards, l), id);
      assert CardsIn(cards - {id}, l) == CardsIn(cards, l) - {id};
      OnlyOneOrder(cards - {id}, CardsIn(cards - {id}, l), LaneList(cards - {id}, l), Without(LaneList(cards, l), id));
    }
  }

  // ---- All of it for one command ----

  lemma MoveDelivers(x: Ctx, db: Db, id: CardId, input: MoveInput)
    requires WellFormed(db) && Move(x, db, id, input).Success?
    ensures var db' := Move(x, db, id, input).value;
            && Advanced(db, db', id, input.expectedVersion, input.to) && MovedTo(db, db', id, input)
            && MovedAsAsked(db, db', id, input, x.now) && TrailsKept(db, db')
  {
    MoveStores(x, db, id, input);
    MoveAdvances(x, db, id, input);
    MovePromise(x, db, id, input);
    if AllTraced(db) {
      MoveTraced(x, db, id, input);
    }
  }

  lemma CancelDelivers(x: Ctx, db: Db, id: CardId, resolution: Resolution, version: nat)
    requires WellFormed(db) && Cancel(x, db, id, resolution, version).Success?
    ensures var db' := Cancel(x, db, id, resolution, version).value;
            && Advanced(db, db', id, version, Done) && LandedLast(db, db', id)
            && CancelledAsAsked(db, db', id, resolution, x.now) && TrailsKept(db, db')
  {
    CancelStores(x, db, id, resolution, version);
    CancelAdvances(x, db, id, resolution, version);
    CancelPromise(x, db, id, resolution, version);
    if AllTraced(db) {
      CancelTraced(x, db, id, resolution, version);
    }
  }

  lemma ReopenDelivers(x: Ctx, db: Db, id: CardId, version: nat)
    requires WellFormed(db) && Reopen(x, db, id, version).Success?
    ensures var db' := Reopen(x, db, id, version).value;
            && Advanced(db, db', id, version, db.lanes[ReopenTarget(db, db.cards[id]).value].key)
            && LandedLast(db, db', id) && ReopenedAsAsked(db, db', id, x.now) && TrailsKept(db, db')
  {
    ReopenStores(x, db, id, version);
    ReopenAdvances(x, db, id, version);
    ReopenPromise(x, db, id, version);
    if AllTraced(db) {
      ReopenTraced(x, db, id, version);
    }
  }
}
