/** When exactly a command succeeds, in terms of the tables, the actor and the request. */
module Acceptance {
  import opened Wrappers
  import opened Domain
  import opened Store
  import opened Commands
  import opened Integrity

  ghost predicate HasColumn(db: Db, board: BoardId, key: LaneKey) {
    exists l :: IsColumn(db, board, key, l)
  }

  lemma ColumnFound(db: Db, board: BoardId, key: LaneKey)
    requires WellFormed(db)
    ensures LaneByKey(db, board, key).Some? <==> HasColumn(db, board, key)
    ensures forall l: LaneId :: IsColumn(db, board, key, l) ==> LaneByKey(db, board, key) == Some(l)
  {
    var found := LaneByKey(db, board, key);
    if found.Some? {
      assert IsColumn(db, board, key, found.value);
    }
  }

  /** A live card of a live board that the actor may access. */
  predicate Editable(x: Ctx, db: Db, id: CardId) {
    id in db.cards && db.cards[id].board in db.live && x.canAccess(db.cards[id].board) && db.cards[id].archivedAt.None?
  }

  // ---- Moves ----

  /** A stated neighbour is another live card of the lane that the card is to be in. */
  predicate IsNeighbor(db: Db, id: CardId, to: LaneKey, n: Option<CardId>) {
    n.Some? && id in db.cards ==>
      && n.value in db.cards && n.value != id && db.cards[n.value].archivedAt.None?
      && IsColumn(db, db.cards[id].board, to, db.cards[n.value].lane)
  }

  predicate InOrder(db: Db, prev: Option<CardId>, next: Option<CardId>) {
    prev.Some? && next.Some? && prev.value in db.cards && next.value in db.cards ==>
      db.cards[prev.value].position < db.cards[next.value].position
  }

  /** What the policy and the waiting lane ask of a move between two lane keys. */
  predicate Permitted(x: Ctx, board: BoardId, from: LaneKey, input: MoveInput) {
    if input.to == from then x.policy(board, ToReorder(from)) == Allowed
    else
      && x.policy(board, ToMove(from, input.to)) == Allowed
      && (from == Done ==> x.policy(board, ToReopen) == Allowed)
      && (input.to == WaitingPartsVendor ==>
            input.waitingReason.Some? && input.expectedResumeAt.Some? && x.reasonActive(board, input.waitingReason.value))
  }

  lemma NeighborsKnown(db: Db, id: CardId, lane: LaneId, input: MoveInput)
    requires WellFormed(db) && id in db.cards && IsColumn(db, db.cards[id].board, input.to, lane)
    ensures StaleNeighbor(db, id, lane, input.prev) <==> !IsNeighbor(db, id, input.to, input.prev)
    ensures StaleNeighbor(db, id, lane, input.next) <==> !IsNeighbor(db, id, input.to, input.next)
  {
  }

  /**
   * A move succeeds exactly then: whatever hidden rows lie between the two neighbours, there is room, and no row is ever
   * rejected for its position.
   */
  lemma MoveSucceedsIff(x: Ctx, db: Db, id: CardId, input: MoveInput)
    requires WellFormed(db)
    ensures Move(x, db, id, input).Success? <==>
              && Editable(x, db, id) && HasColumn(db, db.cards[id].board, input.to)
              && Permitted(x, db.cards[id].board, KeyOf(db, db.cards[id]), input)
              && db.cards[id].version == input.expectedVersion
              && IsNeighbor(db, id, input.to, input.prev) && IsNeighbor(db, id, input.to, input.next)
              && InOrder(db, input.prev, input.next)
  {
    MoveKeeps(x, db, id, input);
    if Editable(x, db, id) {
      ColumnFound(db, db.cards[id].board, input.to);
      if HasColumn(db, db.cards[id].board, input.to) {
        var lane := LaneByKey(db, db.cards[id].board, input.to).value;
        NeighborsKnown(db, id, lane, input);
        RoomForMove(x, db, id, lane, input);
      }
    }
  }

  lemma RoomForMove(x: Ctx, db: Db, id: CardId, lane: LaneId, input: MoveInput)
    requires WellFormed(db) && Editable(x, db, id) && LaneByKey(db, db.cards[id].board, input.to) == Some(lane)
    ensures RefuseMove(x, db, id, input).None? <==>
              && Permitted(x, db.cards[id].board, KeyOf(db, db.cards[id]), input)
              && db.cards[id].version == input.expectedVersion
              && !StaleNeighbor(db, id, lane, input.prev) && !StaleNeighbor(db, id, lane, input.next)
              && InOrder(db, input.prev, input.next)
  {
    if !StaleNeighbor(db, id, lane, input.next) {
      assert input.next.Some? ==> db.cards[input.next.value].position in PositionsIn(db.cards, lane, Some(id));
      GapIsFree(x.keyGen, db.cards, lane, NeighborKey(db, input.next), id);
    }
  }

  // ---- The other commands ----

  /** A creation needs a column to start in, and nothing of its contents but known people and a known place. */
  lemma CreateSucceedsIff(x: Ctx, db: Db, board: BoardId, input: CreateInput)
    requires WellFormed(db)
    ensures Create(x, db, board, input).Success? <==>
              && board in db.live && x.canAccess(board) && x.policy(board, ToCreate) == Allowed
              && x.isUser(input.reporter)
              && (input.assignee.Some? ==> x.isAssignable(input.assignee.value, board))
              && (input.location.Some? ==> x.isLocation(input.location.value))
              && LanesOf(db, board) != {}
  {
    CreateKeeps(x, db, board, input);
  }

  /** What an edit asks of the new values: unchanged ones are not checked, waiting fields only exist while waiting. */
  predicate Acceptable(x: Ctx, card: Card, key: LaneKey, input: UpdateInput) {
    && (Changes(input.assignee, card.assignee) && input.assignee.value.Some? ==>
          x.isAssignable(input.assignee.value.value, card.board))
    && (Changes(input.location, card.location) && input.location.value.Some? ==> x.isLocation(input.location.value.value))
    && (input.waitingReason.Some? || input.expectedResumeAt.Some? ==> key == WaitingPartsVendor)
    && (input.waitingReason.Some? && input.waitingReason != card.waitingReason ==>
          x.reasonActive(card.board, input.waitingReason.value))
  }

  lemma UpdateSucceedsIff(x: Ctx, db: Db, id: CardId, input: UpdateInput)
    requires WellFormed(db)
    ensures Update(x, db, id, input).Success? <==>
              && Editable(x, db, id) && x.policy(db.cards[id].board, ToUpdate) == Allowed
              && db.cards[id].version == input.expectedVersion
              && Acceptable(x, db.cards[id], KeyOf(db, db.cards[id]), input)
  {
    UpdateKeeps(x, db, id, input);
  }

  lemma CancelRefusedUnless(x: Ctx, db: Db, id: CardId, resolution: Resolution, version: nat)
    requires WellFormed(db)
    ensures RefuseCancel(x, db, id, resolution, version).None? <==>
              && resolution != Completed && Editable(x, db, id) && KeyOf(db, db.cards[id]) != Done
              && x.policy(db.cards[id].board, ToCancel) == Allowed && db.cards[id].version == version
              && HasColumn(db, db.cards[id].board, Done)
  {
    if Editable(x, db, id) {
      ColumnFound(db, db.cards[id].board, Done);
    }
  }

  lemma CancelSucceedsIff(x: Ctx, db: Db, id: CardId, resolution: Resolution, version: nat)
    requires WellFormed(db)
    ensures Cancel(x, db, id, resolution, version).Success? <==>
              && resolution != Completed && Editable(x, db, id) && KeyOf(db, db.cards[id]) != Done
              && x.policy(db.cards[id].board, ToCancel) == Allowed && db.cards[id].version == version
              && HasColumn(db, db.cards[id].board, Done)
  {
    CancelRefusedUnless(x, db, id, resolution, version);
    CancelKeeps(x, db, id, resolution, version);
  }

  /** A reopen, of an archived card too, always finds a lane: the board has at least the column that the card is in. */
  lemma ReopenSucceedsIff(x: Ctx, db: Db, id: CardId, version: nat)
    requires WellFormed(db)
    ensures Reopen(x, db, id, version).Success? <==>
              && id in db.cards && db.cards[id].board in db.live && x.canAccess(db.cards[id].board)
              && KeyOf(db, db.cards[id]) == Done && x.policy(db.cards[id].board, ToReopen) == Allowed
              && db.cards[id].version == version
  {
    ReopenKeeps(x, db, id, version);
    if id in db.cards {
      assert db.cards[id].lane in LanesOf(db, db.cards[id].board);
    }
  }

  /** A discard is for cards in a leftmost column, archived or not. */
  lemma DiscardSucceedsIff(x: Ctx, db: Db, id: CardId, version: nat)
    requires WellFormed(db)
    ensures Discard(x, db, id, version).Success? <==>
              && id in db.cards && db.cards[id].board in db.live && x.canAccess(db.cards[id].board)
              && x.policy(db.cards[id].board, ToDelete(db.cards[id].reporter)) == Allowed
              && db.cards[id].version == version && Leftmost(db, db.cards[id].board, db.cards[id].lane)
  {
    if id in db.cards && Leftmost(db, db.cards[id].board, db.cards[id].lane) {
      OnlyOneLeftmost(db, db.cards[id].board, db.cards[id].lane);
    }
  }

  lemma OnlyOneLeftmost(db: Db, board: BoardId, l: LaneId)
    requires WellFormed(db) && Leftmost(db, board, l)
    ensures FirstLane(db, board) == Some(l)
  {
  }

  lemma ArchiveRefusedUnless(x: Ctx, db: Db, id: CardId, version: nat)
    requires WellFormed(db)
    ensures RefuseArchive(x, db, id, version).None? <==>
              && Editable(x, db, id) && KeyOf(db, db.cards[id]) == Done
              && x.policy(db.cards[id].board, ToArchive) == Allowed && db.cards[id].version == version
  {
  }

  /** An archival is for live cards in done. */
  lemma ArchiveSucceedsIff(x: Ctx, db: Db, id: CardId, version: nat)
    requires WellFormed(db)
    ensures Archive(x, db, id, version).Success? <==>
              && Editable(x, db, id) && KeyOf(db, db.cards[id]) == Done
              && x.policy(db.cards[id].board, ToArchive) == Allowed && db.cards[id].version == version
  {
    ArchiveRefusedUnless(x, db, id, version);
    ArchiveKeeps(x, db, id, version);
  }

  lemma SetBlockedRefusedUnless(x: Ctx, db: Db, id: CardId, reason: Option<string>, version: nat)
    requires WellFormed(db)
    ensures RefuseSetBlocked(x, db, id, reason, version).None? <==>
              && Editable(x, db, id) && db.cards[id].version == version
              && match reason
                 case Some(_) => x.policy(db.cards[id].board, ToBlock) == Allowed && !db.cards[id].blocked
                 case None => x.policy(db.cards[id].board, ToUnblock) == Allowed && db.cards[id].blocked
  {
  }

  /** A card is blocked, for a reason, or unblocked, and not twice; each asks for a grant of its own. */
  lemma SetBlockedSucceedsIff(x: Ctx, db: Db, id: CardId, reason: Option<string>, version: nat)
    requires WellFormed(db)
    ensures SetBlocked(x, db, id, reason, version).Success? <==>
              && Editable(x, db, id) && db.cards[id].version == version
              && match reason
                 case Some(_) => x.policy(db.cards[id].board, ToBlock) == Allowed && !db.cards[id].blocked
                 case None => x.policy(db.cards[id].board, ToUnblock) == Allowed && db.cards[id].blocked
  {
    SetBlockedRefusedUnless(x, db, id, reason, version);
    SetBlockedKeeps(x, db, id, reason, version);
  }

  lemma NoteSucceedsIff(x: Ctx, db: Db, id: CardId)
    requires WellFormed(db)
    ensures Note(x, db, id).Success? <==> Editable(x, db, id) && x.policy(db.cards[id].board, ToNote) == Allowed
  {
    NoteKeeps(x, db, id);
  }

  // ---- Columns ----

  /** An actor who may manage the columns of a live board in reach. */
  predicate Manages(x: Ctx, db: Db, board: BoardId) {
    board in db.live && x.canAccess(board) && x.policy(board, ToManageLanes) == Allowed
  }

  lemma CreateLaneSucceedsIff(x: Ctx, db: Db, board: BoardId, id: LaneId, key: LaneKey, wipLimit: Option<nat>)
    requires WellFormed(db)
    ensures CreateLane(x, db, board, id, key, wipLimit).Success? <==>
              Manages(x, db, board) && id !in db.keyEver && !HasColumn(db, board, key)
  {
    ColumnFound(db, board, key);
  }

  /** A limit is set on any column of the board, and nothing else changes. */
  lemma LimitLaneSucceedsIff(x: Ctx, db: Db, board: BoardId, id: LaneId, wipLimit: Option<nat>)
    ensures LimitLane(x, db, board, id, wipLimit).Success? <==>
              Manages(x, db, board) && id in db.lanes && db.lanes[id].board == board
    ensures LimitLane(x, db, board, id, wipLimit).Success? ==>
              LimitLane(x, db, board, id, wipLimit).value ==
                db.(lanes := db.lanes[id := Lane(board, db.lanes[id].key, db.lanes[id].position, wipLimit)])
  {
  }

  /** A column goes when no card at all is in it, archived ones included, and it is not the last one. */
  lemma RemoveLaneSucceedsIff(x: Ctx, db: Db, board: BoardId, id: LaneId)
    requires WellFormed(db)
    ensures RemoveLane(x, db, board, id).Success? <==>
              && Manages(x, db, board) && id in db.lanes && db.lanes[id].board == board
              && (exists l :: l in db.lanes && db.lanes[l].board == board && l != id)
              && forall c :: c in db.cards ==> db.cards[c].lane != id
    ensures RemoveLane(x, db, board, id).Success? ==>
              RemoveLane(x, db, board, id).value == db.(lanes := db.lanes - {id})
  {
    if id in LanesOf(db, board) {
      OtherColumn(db, board, id);
    }
    if FirstKey(db.cards, id).None? {
      NobodyLeft(db.cards, id);
    } else {
      var c :| c in db.cards && db.cards[c].lane == id;
    }
  }

  lemma OtherColumn(db: Db, board: BoardId, id: LaneId)
    requires id in LanesOf(db, board)
    ensures |LanesOf(db, board)| > 1 <==> exists l :: l in db.lanes && db.lanes[l].board == board && l != id
  {
    var others := LanesOf(db, board) - {id};
    assert LanesOf(db, board) == others + {id};
    assert |LanesOf(db, board)| == |others| + 1;
    if l :| l in db.lanes && db.lanes[l].board == board && l != id {
      assert l in others;
    } else {
      assert others == {};
    }
  }

  lemma ReorderSucceedsIff(x: Ctx, db: Db, board: BoardId, order: seq<LaneId>)
    requires WellFormed(db)
    ensures ReorderLanes(x, db, board, order).Success? <==> Manages(x, db, board) && IsFullOrder(db, board, order)
    ensures ReorderLanes(x, db, board, order).Success? ==>
              var db' := ReorderLanes(x, db, board, order).value;
              && db' == db.(lanes := db'.lanes) && db'.lanes.Keys == db.lanes.Keys
              && (forall l :: l in db.lanes && db.lanes[l].board != board ==> db'.lanes[l] == db.lanes[l])
              && forall i :: 0 <= i < |order| ==>
                   order[i] in db.lanes && db'.lanes[order[i]] == db.lanes[order[i]].(position := i)
  {
    if IsFullOrder(db, board, order) {
      forall i | 0 <= i < |order|
        ensures Rank(order, order[i]) == i && order[i] in LanesOf(db, board)
      {
        assert order[i] in order;
      }
      forall l | l in order
        ensures l in LanesOf(db, board)
      {
        var i :| 0 <= i < |order| && order[i] == l;
      }
    }
  }

  // ---- Boards ----

  /** A board is opened, live and with its seven columns, by whoever manages boards. */
  lemma OpenBoardSucceedsIff(x: Ctx, db: Db, board: BoardId, ids: seq<LaneId>)
    ensures OpenBoard(x, db, board, ids).Success? <==> x.policy(board, ToManageBoards) == Allowed && AreNew(db, board, ids)
    ensures OpenBoard(x, db, board, ids).Success? ==>
              var db' := OpenBoard(x, db, board, ids).value;
              && db' == db.(live := db.live + {board}, lanes := db'.lanes, keyEver := db'.keyEver)
              && (forall l :: l in db.lanes ==> l in db'.lanes && (l !in ids ==> db'.lanes[l] == db.lanes[l]))
              && forall i :: 0 <= i < |ids| ==>
                   ids[i] in db'.lanes && db'.lanes[ids[i]] == Lane(board, DEFAULT_KEYS[i], i, DEFAULT_LIMITS[i])
  {
    if AreNew(db, board, ids) {
      forall i | 0 <= i < |ids|
        ensures ids[i] in ids && Rank(ids, ids[i]) == i
      {
      }
    }
  }

  /** A board in reach is deleted, which only hides it, unless it is the last one. */
  lemma HideBoardSucceedsIff(x: Ctx, db: Db, board: BoardId)
    ensures HideBoard(x, db, board).Success? <==>
              && x.policy(board, ToManageBoards) == Allowed && board in db.live && x.canAccess(board)
              && exists other :: other in db.live && other != board
    ensures HideBoard(x, db, board).Success? ==> HideBoard(x, db, board).value == db.(live := db.live - {board})
  {
    if board in db.live {
      var others := db.live - {board};
      assert db.live == others + {board};
      if other :| other in db.live && other != board {
        assert other in others;
      } else {
        assert others == {};
      }
    }
  }
}
