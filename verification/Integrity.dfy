/** Every command keeps the tables well formed, and the duplicate-position backstop never fires. */
module Integrity {
  import opened Wrappers
  import Finite
  import opened Keys
  import opened Domain
  import opened Store
  import opened LaneOrder
  import opened Commands

  // ---- Keys land in gaps ----

  /** A key generated in the gap before `next` collides with no other row of the lane. */
  lemma GapIsFree(keyGen: KeyGen, cards: map<CardId, Card>, lane: LaneId, next: Option<Key>, moving: CardId)
    requires next.Some? ==> next.value in PositionsIn(cards, lane, Some(moving))
    ensures var before := PositionBefore(cards, lane, next, moving);
            && Gap(before, next)
            && var p := keyGen.between(before, next);
               && p !in PositionsIn(cards, lane, Some(moving))
               && Above(p, before) && Below(p, next)
               && (forall q :: q in PositionsIn(cards, lane, Some(moving)) ==>
                     if Below(q, next) then q < p else p < q)
  {
    var below := set p | p in PositionsIn(cards, lane, Some(moving)) && Below(p, next);
    var before := PositionBefore(cards, lane, next, moving);
    assert before == Highest(below);
    assert before.Some? ==> before.value in below;
    var p := keyGen.between(before, next);
    assert Above(p, before) && Below(p, next);
    forall q | q in PositionsIn(cards, lane, Some(moving))
      ensures if Below(q, next) then q < p else p < q
    {
      if Below(q, next) {
        assert q in below;
        assert q <= before.value;
      } else {
        assert next.value <= q;
      }
    }
  }

  /** A key after the last one of the lane is above every row of the lane. */
  lemma EndIsFree(keyGen: KeyGen, cards: map<CardId, Card>, lane: LaneId)
    ensures var p := keyGen.between(LastKey(cards, lane), None);
            forall q :: q in PositionsIn(cards, lane, None) ==> q < p
  {
    assert Above(keyGen.between(LastKey(cards, lane), None), LastKey(cards, lane));
  }

  lemma FrontIsFree(keyGen: KeyGen, cards: map<CardId, Card>, lane: LaneId)
    ensures var p := keyGen.between(None, FirstKey(cards, lane));
            forall q :: q in PositionsIn(cards, lane, None) ==> p < q
  {
    assert Below(keyGen.between(None, FirstKey(cards, lane)), FirstKey(cards, lane));
  }

  lemma OthersAreFewer(cards: map<CardId, Card>, lane: LaneId, c: CardId)
    ensures PositionsIn(cards, lane, Some(c)) <= PositionsIn(cards, lane, None)
  {
  }

  /** A row that keeps its lane and key clashes with nobody. */
  lemma OwnPlaceIsFree(db: Db, card: Card)
    requires WellFormed(db) && card.id in db.cards
    requires card.lane == db.cards[card.id].lane && card.position == db.cards[card.id].position
    ensures !Clashes(db.cards, card)
  {
  }

  // ---- One saved row ----

  /** One row written with a key nobody else in its lane has. */
  lemma WriteDistinct(cards: map<CardId, Card>, card: Card)
    requires PositionsDistinct(cards) && !Clashes(cards, card)
    ensures PositionsDistinct(cards[card.id := card])
  {
    forall d | d in cards && d != card.id && cards[d].lane == card.lane
      ensures cards[d].position != card.position
    {
      assert cards[d].position in PositionsIn(cards, card.lane, Some(card.id));
    }
  }

  lemma WritePlaced(lanes: map<LaneId, Lane>, cards: map<CardId, Card>, card: Card)
    requires CardsPlaced(lanes, cards) && card.lane in lanes && lanes[card.lane].board == card.board
    ensures CardsPlaced(lanes, cards[card.id := card])
  {
  }

  lemma RowWritten(db: Db, db': Db)
    requires WellFormed(db) && CardsPlaced(db.lanes, db'.cards) && PositionsDistinct(db'.cards)
    requires db' == db.(cards := db'.cards, log := db'.log, nextEvent := db'.nextEvent)
    requires db'.cards.Keys == db.cards.Keys && db'.log.Keys == db.log.Keys
    ensures WellFormed(db')
  {
  }

  lemma SaveKeeps(db: Db, card: Card, now: Time, bodies: seq<Body>)
    requires WellFormed(db) && card.id in db.cards && !Clashes(db.cards, card)
    requires card.lane in db.lanes && db.lanes[card.lane].board == card.board
    ensures Save(db, card, now, bodies).Success? && WellFormed(Save(db, card, now, bodies).value)
  {
    WriteDistinct(db.cards, card);
    WritePlaced(db.lanes, db.cards, card);
    RowWritten(db, Save(db, card, now, bodies).value);
  }

  lemma InsertKeeps(db: Db, card: Card, now: Time, tags: map<string, string>, folded: set<string>)
    requires WellFormed(db) && card.id !in db.cards && !Clashes(db.cards, card)
    requires card.lane in db.lanes && db.lanes[card.lane].board == card.board
    requires db.tags.Keys + folded <= tags.Keys && TagsFolded(tags)
    ensures Insert(db, card, now, tags, folded).Success? && WellFormed(Insert(db, card, now, tags, folded).value)
  {
    WriteDistinct(db.cards, card);
    WritePlaced(db.lanes, db.cards, card);
    MoreTagsKnown(db.tags, tags, db.cardTags, card.id, folded);
  }

  lemma MoreTagsKnown(tags: map<string, string>, more: map<string, string>, cardTags: map<CardId, set<string>>, id: CardId,
                      folded: set<string>)
    requires TagsKnown(tags, cardTags) && tags.Keys + folded <= more.Keys
    ensures TagsKnown(more, cardTags[id := folded])
  {
  }

  lemma CreateKeeps(x: Ctx, db: Db, board: BoardId, input: CreateInput)
    requires WellFormed(db)
    ensures Create(x, db, board, input) != Failure(DuplicatePosition)
    ensures Create(x, db, board, input).Success? ==> WellFormed(Create(x, db, board, input).value)
  {
    if RefuseCreate(x, db, board, input).None? {
      var entry := FirstLane(db, board).value;
      var card := NewCard(x, db, board, entry, input);
      FrontIsFree(x.keyGen, db.cards, entry);
      OthersAreFewer(db.cards, entry, card.id);
      TagsResolved(db.tags, input.tags);
      var (tags, folded) := ResolveTags(db.tags, input.tags);
      InsertKeeps(db, card, x.now, tags, folded);
    }
  }

  lemma UpdateKeeps(x: Ctx, db: Db, id: CardId, input: UpdateInput)
    requires WellFormed(db)
    ensures Update(x, db, id, input) != Failure(DuplicatePosition)
    ensures Update(x, db, id, input).Success? ==> WellFormed(Update(x, db, id, input).value)
  {
    if RefuseUpdate(x, db, id, input).None? {
      var (tags, folded) := WantedTags(db, id, input.tags);
      if input.tags.Some? { TagsResolved(db.tags, input.tags.value); }
      var draft := EditAll(db, id, input);
      if draft.bodies == [] {
        TagRowsKeep(db, tags);
      } else {
        DraftKeeps(db, id, tags, folded, draft, x.now);
      }
    }
  }

  lemma RetagKeeps(db: Db, id: CardId, tags: map<string, string>, folded: set<string>)
    requires WellFormed(db) && id in db.cards
    requires db.tags.Keys + folded <= tags.Keys && TagsFolded(tags)
    ensures WellFormed(db.(tags := tags, cardTags := db.cardTags[id := folded]))
  {
    MoreTagsKnown(db.tags, tags, db.cardTags, id, folded);
  }

  lemma TagRowsKeep(db: Db, tags: map<string, string>)
    requires WellFormed(db) && db.tags.Keys <= tags.Keys && TagsFolded(tags)
    ensures WellFormed(db.(tags := tags))
  {
  }

  lemma DraftKeeps(db: Db, id: CardId, tags: map<string, string>, folded: set<string>, draft: Draft, now: Time)
    requires WellFormed(db) && id in db.cards && db.tags.Keys + folded <= tags.Keys && TagsFolded(tags)
    requires OnlyEdited(db.cards[id], draft.card)
    ensures var retagged := db.(tags := tags, cardTags := db.cardTags[id := folded]);
            && draft.card.id in retagged.log
            && Save(retagged, Edited(draft.card, now), now, draft.bodies).Success?
            && WellFormed(Save(retagged, Edited(draft.card, now), now, draft.bodies).value)
  {
    RetagKeeps(db, id, tags, folded);
    InPlaceKeeps(db.(tags := tags, cardTags := db.cardTags[id := folded]), Edited(draft.card, now), now, draft.bodies);
  }

  lemma MoveKeeps(x: Ctx, db: Db, id: CardId, input: MoveInput)
    requires WellFormed(db)
    ensures Move(x, db, id, input) != Failure(DuplicatePosition)
    ensures Move(x, db, id, input).Success? ==> WellFormed(Move(x, db, id, input).value)
  {
    if RefuseMove(x, db, id, input).None? {
      var lane, next := LaneByKey(db, db.cards[id].board, input.to).value, NeighborKey(db, input.next);
      if input.next.Some? {
        assert db.cards[input.next.value].position in PositionsIn(db.cards, lane, Some(id));
      }
      GapIsFree(x.keyGen, db.cards, lane, next, id);
      SaveKeeps(db, MovedRow(x, db, id, input), x.now, [MovedBody(db, id, input)]);
    }
  }

  lemma CancelKeeps(x: Ctx, db: Db, id: CardId, resolution: Resolution, version: nat)
    requires WellFormed(db)
    ensures Cancel(x, db, id, resolution, version) != Failure(DuplicatePosition)
    ensures Cancel(x, db, id, resolution, version).Success? ==> WellFormed(Cancel(x, db, id, resolution, version).value)
  {
    if RefuseCancel(x, db, id, resolution, version).None? {
      var card := db.cards[id];
      CancelLands(x, db, id, resolution, LaneByKey(db, card.board, Done).value,
                  [CardCancelled(CancellationOf(db, card, resolution))]);
    }
  }

  lemma CancelLands(x: Ctx, db: Db, id: CardId, resolution: Resolution, lane: LaneId, bodies: seq<Body>)
    requires WellFormed(db) && id in db.cards && lane in db.lanes && db.lanes[lane].board == db.cards[id].board
    ensures Save(db, CancelledRow(x, db, id, resolution, lane), x.now, bodies).Success?
    ensures WellFormed(Save(db, CancelledRow(x, db, id, resolution, lane), x.now, bodies).value)
  {
    LandsLast(x, db, CancelledRow(x, db, id, resolution, lane), bodies);
  }

  lemma ReopenKeeps(x: Ctx, db: Db, id: CardId, version: nat)
    requires WellFormed(db)
    ensures Reopen(x, db, id, version) != Failure(DuplicatePosition)
    ensures Reopen(x, db, id, version).Success? ==> WellFormed(Reopen(x, db, id, version).value)
  {
    if RefuseReopen(x, db, id, version).None? {
      LandsLast(x, db, ReopenedRow(x, db, id), [Reopened(db.lanes[ReopenTarget(db, db.cards[id]).value].key)]);
    }
  }

  /** A row at the end of a lane of its board can be saved. */
  lemma LandsLast(x: Ctx, db: Db, row: Card, bodies: seq<Body>)
    requires WellFormed(db) && row.id in db.cards && row.lane in db.lanes && db.lanes[row.lane].board == row.board
    requires row.position == x.keyGen.between(LastKey(db.cards, row.lane), None)
    ensures Save(db, row, x.now, bodies).Success? && WellFormed(Save(db, row, x.now, bodies).value)
  {
    EndIsFree(x.keyGen, db.cards, row.lane);
    OthersAreFewer(db.cards, row.lane, row.id);
    SaveKeeps(db, row, x.now, bodies);
  }

  /** A row that stays where it is can be saved. */
  lemma InPlaceKeeps(db: Db, row: Card, now: Time, bodies: seq<Body>)
    requires WellFormed(db) && row.id in db.cards
    requires row.lane == db.cards[row.id].lane && row.board == db.cards[row.id].board
    requires row.position == db.cards[row.id].position
    ensures Save(db, row, now, bodies).Success? && WellFormed(Save(db, row, now, bodies).value)
  {
    OwnPlaceIsFree(db, row);
    SaveKeeps(db, row, now, bodies);
  }

  lemma ArchiveKeeps(x: Ctx, db: Db, id: CardId, version: nat)
    requires WellFormed(db)
    ensures Archive(x, db, id, version) != Failure(DuplicatePosition)
    ensures Archive(x, db, id, version).Success? ==> WellFormed(Archive(x, db, id, version).value)
  {
    if RefuseArchive(x, db, id, version).None? {
      InPlaceKeeps(db, ArchivedRow(db.cards[id], x.now), x.now, [CardArchived]);
    }
  }

  lemma ArchiveOneKeeps(now: Time, db: Db, id: CardId, lane: LaneId, cutoff: Time)
    requires WellFormed(db)
    ensures ArchiveOne(now, db, id, lane, cutoff).Success?
    ensures WellFormed(ArchiveOne(now, db, id, lane, cutoff).value)
  {
    if id in db.cards {
      InPlaceKeeps(db, ArchivedRow(db.cards[id], now), now, [CardArchived]);
    }
  }

  lemma SetBlockedKeeps(x: Ctx, db: Db, id: CardId, reason: Option<string>, version: nat)
    requires WellFormed(db)
    ensures SetBlocked(x, db, id, reason, version) != Failure(DuplicatePosition)
    ensures SetBlocked(x, db, id, reason, version).Success? ==> WellFormed(SetBlocked(x, db, id, reason, version).value)
  {
    if RefuseSetBlocked(x, db, id, reason, version).None? {
      InPlaceKeeps(db, BlockedRow(db.cards[id], reason, x.now), x.now,
                   [if reason.Some? then BlockRaised(reason.value) else BlockCleared]);
    }
  }

  lemma NoteKeeps(x: Ctx, db: Db, id: CardId)
    requires WellFormed(db)
    ensures Note(x, db, id) != Failure(DuplicatePosition)
    ensures Note(x, db, id).Success? ==> WellFormed(Note(x, db, id).value)
  {
    if RefuseNote(x, db, id).None? {
      InPlaceKeeps(db, db.cards[id], x.now, [Noted]);
    }
  }

  lemma ClaimKeeps(x: Ctx, db: Db)
    requires WellFormed(db)
    ensures WellFormed(ClaimOverdue(x, db).value)
  {
  }

  lemma DiscardKeeps(x: Ctx, db: Db, id: CardId, version: nat)
    requires WellFormed(db)
    ensures Discard(x, db, id, version) != Failure(DuplicatePosition)
    ensures Discard(x, db, id, version).Success? ==> WellFormed(Discard(x, db, id, version).value)
  {
  }

  lemma ForgetKeeps(db: Db, gone: set<LocationId>)
    requires WellFormed(db)
    ensures WellFormed(ForgetLocations(db, gone).value)
  {
  }

  // ---- Lanes ----

  /** A created column has a fresh id, an unused key and the last place. */
  lemma CreateLaneAdds(x: Ctx, db: Db, board: BoardId, id: LaneId, key: LaneKey, wip: Option<nat>)
    requires WellFormed(db) && CreateLane(x, db, board, id, key, wip).Success?
    ensures var lane := Lane(board, key, LastLanePosition(db, board) + 1, wip);
            && CreateLane(x, db, board, id, key, wip) == Success(AddLane(db, id, lane))
            && id !in db.keyEver && id !in db.lanes
            && forall l :: l in db.lanes && db.lanes[l].board == board ==>
                 db.lanes[l].key != key && db.lanes[l].position != lane.position
  {
    forall l | l in db.lanes && db.lanes[l].board == board
      ensures db.lanes[l].key != key && db.lanes[l].position <= LastLanePosition(db, board)
    {
      assert l in LanesOf(db, board);
    }
  }

  lemma CreateLaneKeeps(x: Ctx, db: Db, board: BoardId, id: LaneId, key: LaneKey, wip: Option<nat>)
    requires WellFormed(db)
    ensures CreateLane(x, db, board, id, key, wip) != Failure(DuplicatePosition)
    ensures CreateLane(x, db, board, id, key, wip).Success? ==> WellFormed(CreateLane(x, db, board, id, key, wip).value)
  {
    if CreateLane(x, db, board, id, key, wip).Success? {
      CreateLaneAdds(x, db, board, id, key, wip);
      AddLaneKeeps(db, id, Lane(board, key, LastLanePosition(db, board) + 1, wip));
    }
  }

  lemma AddLaneKeeps(db: Db, id: LaneId, lane: Lane)
    requires WellFormed(db) && id !in db.lanes
    requires forall l :: l in db.lanes && db.lanes[l].board == lane.board ==>
               db.lanes[l].key != lane.key && db.lanes[l].position != lane.position
    ensures WellFormed(AddLane(db, id, lane))
  {
    assert LanesDistinct(db.lanes[id := lane]);
    assert CardsPlaced(db.lanes[id := lane], db.cards);
  }

  /** The default columns have different keys and places. */
  lemma DefaultLanesDiffer(board: BoardId, ids: seq<LaneId>)
    requires |ids| == |DEFAULT_KEYS|
    ensures LanesDistinct(DefaultLanes(board, ids))
    ensures forall l :: l in DefaultLanes(board, ids) ==> DefaultLanes(board, ids)[l].board == board
  {
    var lanes := DefaultLanes(board, ids);
    forall l, m | l in lanes && m in lanes && l != m
      ensures lanes[l].key != lanes[m].key && lanes[l].position != lanes[m].position
    {
      assert ids[Rank(ids, l)] == l && ids[Rank(ids, m)] == m;
    }
  }

  lemma AddBoardKeeps(db: Db, board: BoardId, lanes: map<LaneId, Lane>)
    requires WellFormed(db) && LanesDistinct(lanes) && LanesOf(db, board) == {}
    requires forall l :: l in lanes ==> lanes[l].board == board && l !in db.keyEver
    ensures WellFormed(AddBoard(db, board, lanes))
  {
    var db' := AddBoard(db, board, lanes);
    forall l | l in lanes
      ensures l !in db.lanes
    {
    }
    forall l | l in db.lanes
      ensures db.lanes[l].board != board
    {
      assert l !in LanesOf(db, board);
    }
    LanesTogether(db.lanes, lanes, board);
    assert CardsPlaced(db'.lanes, db'.cards);
  }

  lemma LanesTogether(lanes: map<LaneId, Lane>, more: map<LaneId, Lane>, board: BoardId)
    requires LanesDistinct(lanes) && LanesDistinct(more)
    requires (forall l :: l in lanes ==> lanes[l].board != board) && forall l :: l in more ==> more[l].board == board
    ensures LanesDistinct(lanes + more)
  {
  }

  lemma OpenBoardKeeps(x: Ctx, db: Db, board: BoardId, ids: seq<LaneId>)
    requires WellFormed(db)
    ensures OpenBoard(x, db, board, ids) != Failure(DuplicatePosition)
    ensures OpenBoard(x, db, board, ids).Success? ==> WellFormed(OpenBoard(x, db, board, ids).value)
  {
    if OpenBoard(x, db, board, ids).Success? {
      DefaultLanesDiffer(board, ids);
      AddBoardKeeps(db, board, DefaultLanes(board, ids));
    }
  }

  lemma LimitLaneKeeps(x: Ctx, db: Db, board: BoardId, id: LaneId, wip: Option<nat>)
    requires WellFormed(db)
    ensures LimitLane(x, db, board, id, wip) != Failure(DuplicatePosition)
    ensures LimitLane(x, db, board, id, wip).Success? ==> WellFormed(LimitLane(x, db, board, id, wip).value)
  {
  }

  lemma NobodyLeft(cards: map<CardId, Card>, id: LaneId)
    requires FirstKey(cards, id).None?
    ensures forall c :: c in cards ==> cards[c].lane != id
  {
    forall c | c in cards
      ensures cards[c].lane != id
    {
      assert cards[c].position in PositionsIn(cards, cards[c].lane, None);
    }
  }

  lemma RemoveLaneKeeps(x: Ctx, db: Db, board: BoardId, id: LaneId)
    requires WellFormed(db)
    ensures RemoveLane(x, db, board, id) != Failure(DuplicatePosition)
    ensures RemoveLane(x, db, board, id).Success? ==> WellFormed(RemoveLane(x, db, board, id).value)
  {
    if RemoveLane(x, db, board, id).Success? {
      NobodyLeft(db.cards, id);
      LaneGoneKeeps(db, id);
    }
  }

  lemma LaneGoneKeeps(db: Db, id: LaneId)
    requires WellFormed(db) && forall c :: c in db.cards ==> db.cards[c].lane != id
    ensures WellFormed(db.(lanes := db.lanes - {id}))
  {
  }

  lemma ReorderKeeps(x: Ctx, db: Db, board: BoardId, order: seq<LaneId>)
    requires WellFormed(db)
    ensures ReorderLanes(x, db, board, order) != Failure(DuplicatePosition)
    ensures ReorderLanes(x, db, board, order).Success? ==> WellFormed(ReorderLanes(x, db, board, order).value)
  {
    if ReorderLanes(x, db, board, order).Success? {
      FullOrderListsAll(db, board, order);
      var lanes := ReorderLanes(x, db, board, order).value.lanes;
      ReorderedDiffer(db, board, order, lanes);
      ReplacedLanesKeep(db, lanes);
    }
  }

  lemma ReorderedDiffer(db: Db, board: BoardId, order: seq<LaneId>, lanes: map<LaneId, Lane>)
    requires LanesDistinct(db.lanes) && IsFullOrder(db, board, order) && forall l :: l in LanesOf(db, board) ==> l in order
    requires lanes.Keys == db.lanes.Keys
    requires forall l :: l in lanes ==>
               lanes[l] == if l in order then db.lanes[l].(position := Rank(order, l)) else db.lanes[l]
    ensures LanesDistinct(lanes)
  {
  }

  /** Columns that only change their place, and still differ in it. */
  lemma ReplacedLanesKeep(db: Db, lanes: map<LaneId, Lane>)
    requires WellFormed(db) && lanes.Keys == db.lanes.Keys && LanesDistinct(lanes)
    requires forall l :: l in lanes ==> lanes[l] == db.lanes[l].(position := lanes[l].position)
    ensures WellFormed(db.(lanes := lanes))
  {
  }

  /** As many distinct lanes of the board as there are: none is missing. */
  lemma FullOrderListsAll(db: Db, board: BoardId, order: seq<LaneId>)
    requires IsFullOrder(db, board, order)
    ensures forall l :: l in LanesOf(db, board) ==> l in order
  {
    var named := set i | 0 <= i < |order| :: order[i];
    DistinctCount(order);
    assert named <= LanesOf(db, board);
    Finite.SubsetIsNoLarger(named, LanesOf(db, board));
    forall l | l in LanesOf(db, board)
      ensures l in order
    {
      assert l in named;
    }
  }

  lemma {:induction false} DistinctCount(order: seq<LaneId>)
    requires forall i, j :: 0 <= i < j < |order| ==> order[i] != order[j]
    ensures |set i | 0 <= i < |order| :: order[i]| == |order|
  {
    if order != [] {
      var n := |order| - 1;
      DistinctCount(order[..n]);
      var front := set i | 0 <= i < n :: order[..n][i];
      var all := set i | 0 <= i < |order| :: order[i];
      assert forall i :: 0 <= i < n ==> order[..n][i] == order[i];
      assert front == set i | 0 <= i < n :: order[i];
      assert all == front + {order[n]};
      assert order[n] !in front;
    }
  }

  // ---- Rebalancing ----

  /** The cards of `ids` have the keys of the same index, all others are as they were. */
  ghost predicate IsRekeyed(cards: map<CardId, Card>, cards': map<CardId, Card>, ids: seq<CardId>, keys: seq<Key>) {
    && cards'.Keys == cards.Keys && |ids| <= |keys|
    && (forall i :: 0 <= i < |ids| ==> ids[i] in cards && cards'[ids[i]] == cards[ids[i]].(position := keys[i]))
    && (forall c :: c in cards && c !in ids ==> cards'[c] == cards[c])
  }

  /**
   * The single pass of a rebalance, after any number of row updates: no key is shared, archived rows are as
   * they were, and the rewritten rows come after all others, in their old order.
   */
  lemma {:induction false} RekeyedKeeps(cards: map<CardId, Card>, lane: LaneId, ids: seq<CardId>, keys: seq<Key>)
    requires PositionsDistinct(cards)
    requires |ids| <= |keys| && Ascending(keys)
    requires forall i :: 0 <= i < |ids| ==> ids[i] in cards && cards[ids[i]].lane == lane
    requires forall i, j :: 0 <= i < j < |ids| ==> ids[i] != ids[j]
    requires forall k, q :: 0 <= k < |keys| && q in PositionsIn(cards, lane, None) ==> q < keys[k]
    ensures IsRekeyed(cards, Rekeyed(cards, ids, keys), ids, keys) && PositionsDistinct(Rekeyed(cards, ids, keys))
    decreases |ids|
  {
    if ids != [] {
      var n := |ids| - 1;
      RekeyedKeeps(cards, lane, ids[..n], keys);
      RekeyedOneMore(cards, Rekeyed(cards, ids[..n], keys), lane, ids[..n], ids[n], keys);
      assert ids[..n] + [ids[n]] == ids;
    }
  }

  lemma RekeyedOneMore(cards: map<CardId, Card>, before: map<CardId, Card>, lane: LaneId, front: seq<CardId>, last: CardId,
                       keys: seq<Key>)
    requires |front| < |keys| && Ascending(keys) && last !in front && last in cards && cards[last].lane == lane
    requires PositionsDistinct(before) && IsRekeyed(cards, before, front, keys)
    requires forall k, q :: 0 <= k < |keys| && q in PositionsIn(cards, lane, None) ==> q < keys[k]
    ensures var after := before[last := before[last].(position := keys[|front|])];
            IsRekeyed(cards, after, front + [last], keys) && PositionsDistinct(after)
  {
    var row := before[last].(position := keys[|front|]);
    forall c | c in before && c != last && before[c].lane == lane
      ensures before[c].position < keys[|front|]
    {
      if c in front {
        var i :| 0 <= i < |front| && front[i] == c;
      } else {
        assert cards[c].position in PositionsIn(cards, lane, None);
      }
    }
    WriteAbove(before, last, row);
  }

  /** A row written under its own id with a key above its whole lane. */
  lemma WriteAbove(cards: map<CardId, Card>, id: CardId, row: Card)
    requires PositionsDistinct(cards)
    requires forall c :: c in cards && c != id && cards[c].lane == row.lane ==> cards[c].position < row.position
    ensures PositionsDistinct(cards[id := row])
  {
  }

  lemma RebalanceKeeps(x: Ctx, db: Db, lane: LaneId)
    requires WellFormed(db)
    ensures WellFormed(Rebalance(x, db, lane).value)
  {
    if Outgrown(x, db, lane) {
      var ids := ActiveList(db.cards, lane);
      var keys := x.keyGen.after(LastKey(db.cards, lane), |ids|);
      FreshBatch(x, db, lane);
      RekeyedKeeps(db.cards, lane, ids, keys);
      var cards' := Rekeyed(db.cards, ids, keys);
      forall c | c in cards'
        ensures cards'[c].id == c && cards'[c].lane == db.cards[c].lane && cards'[c].board == db.cards[c].board
      {
        if c in ids {
          var i :| 0 <= i < |ids| && ids[i] == c;
        }
      }
    }
  }

  /** What the generator's batch above the last key gives the pass. */
  lemma FreshBatch(x: Ctx, db: Db, lane: LaneId)
    requires WellFormed(db)
    ensures var ids := ActiveList(db.cards, lane);
            var keys := x.keyGen.after(LastKey(db.cards, lane), |ids|);
            && |keys| == |ids| && Ascending(keys)
            && (forall i :: 0 <= i < |ids| ==> ids[i] in db.cards && db.cards[ids[i]].lane == lane)
            && (forall i, j :: 0 <= i < j < |ids| ==> ids[i] != ids[j])
            && (forall k, q :: 0 <= k < |keys| && q in PositionsIn(db.cards, lane, None) ==> q < keys[k])
  {
    var ids := ActiveList(db.cards, lane);
    var last := LastKey(db.cards, lane);
    var keys := x.keyGen.after(last, |ids|);
    forall k, q | 0 <= k < |keys| && q in PositionsIn(db.cards, lane, None)
      ensures q < keys[k]
    {
      assert Above(keys[k], last);
    }
  }

  // ---- Any command ----

  /** UNIQUE(lane, position) is never violated, so the retry behind it is never taken. */
  lemma BackstopNeverFires(x: Ctx, db: Db, c: Command)
    requires WellFormed(db)
    ensures Execute(x, db, c) != Failure(DuplicatePosition)
  {
    ExecuteKeeps(x, db, c);
  }

  lemma ExecuteKeeps(x: Ctx, db: Db, c: Command)
    requires WellFormed(db)
    ensures Execute(x, db, c) != Failure(DuplicatePosition)
    ensures Execute(x, db, c).Success? ==> WellFormed(Execute(x, db, c).value)
  {
    if c.DoCreateLane? || c.DoLimitLane? || c.DoRemoveLane? || c.DoReorderLanes? || c.DoOpenBoard?
       || c.DoHideBoard? || c.DoForgetLocations? || c.DoRebalance? {
      LaneCommandKeeps(x, db, c);
    } else {
      CardCommandKeeps(x, db, c);
    }
  }

  lemma LaneCommandKeeps(x: Ctx, db: Db, c: Command)
    requires WellFormed(db)
    requires c.DoCreateLane? || c.DoLimitLane? || c.DoRemoveLane? || c.DoReorderLanes? || c.DoOpenBoard?
             || c.DoHideBoard? || c.DoForgetLocations? || c.DoRebalance?
    ensures Execute(x, db, c) != Failure(DuplicatePosition)
    ensures Execute(x, db, c).Success? ==> WellFormed(Execute(x, db, c).value)
  {
    match c
    case DoCreateLane(board, lane, key, wip) => CreateLaneKeeps(x, db, board, lane, key, wip);
    case DoLimitLane(board, lane, wip) => LimitLaneKeeps(x, db, board, lane, wip);
    case DoRemoveLane(board, lane) => RemoveLaneKeeps(x, db, board, lane);
    case DoReorderLanes(board, order) => ReorderKeeps(x, db, board, order);
    case DoOpenBoard(board, ids) => OpenBoardKeeps(x, db, board, ids);
    case DoHideBoard(board) =>
    case DoForgetLocations(gone) => ForgetKeeps(db, gone);
    case DoRebalance(lane) => RebalanceKeeps(x, db, lane);
  }

  lemma CardCommandKeeps(x: Ctx, db: Db, c: Command)
    requires WellFormed(db)
    requires !(c.DoCreateLane? || c.DoLimitLane? || c.DoRemoveLane? || c.DoReorderLanes? || c.DoOpenBoard?
               || c.DoHideBoard? || c.DoForgetLocations? || c.DoRebalance?)
    ensures Execute(x, db, c) != Failure(DuplicatePosition)
    ensures Execute(x, db, c).Success? ==> WellFormed(Execute(x, db, c).value)
  {
    match c
    case DoCreate(board, input) => CreateKeeps(x, db, board, input);
    case DoUpdate(id, input) => UpdateKeeps(x, db, id, input);
    case DoMove(id, input) => MoveKeeps(x, db, id, input);
    case DoCancel(id, resolution, version) => CancelKeeps(x, db, id, resolution, version);
    case DoReopen(id, version) => ReopenKeeps(x, db, id, version);
    case DoArchive(id, version) => ArchiveKeeps(x, db, id, version);
    case DoArchiveOne(id, lane, cutoff) => ArchiveOneKeeps(x.now, db, id, lane, cutoff);
    case DoClaim => ClaimKeeps(x, db);
    case DoSetBlocked(id, reason, version) => SetBlockedKeeps(x, db, id, reason, version);
    case DoNote(id) => NoteKeeps(x, db, id);
    case DoDiscard(id, version) => DiscardKeeps(x, db, id, version);
  }
}
