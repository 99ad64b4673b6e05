/**
 * Which fields a card carries in which lane. The service keeps the rule as long as new and reopened cards do
 * not fall into a first column whose key carries workflow behaviour; that condition is exact.
 */
module Shapes {
  import opened Wrappers
  import opened Keys
  import opened Domain
  import opened Audit
  import opened Store
  import opened Commands
  import opened Integrity
  import opened Records
  import opened Trails

  // ---- Appended events ----

  lemma OneMoreEvent(log: seq<Event>, first: EventId, now: Time, b: Body)
    ensures LastCancel(log + Stamp(first, now, [b])) == if b.CardCancelled? then Some(b.record) else LastCancel(log)
  {
    var e := Event(first, now, b);
    assert Stamp(first, now, [b]) == [e];
    LatestOfAppend(log, e, IS_CANCEL);
  }

  lemma {:induction false} EditsHideNoCancel(log: seq<Event>, first: EventId, now: Time, bodies: seq<Body>)
    requires OnlyFieldChanges(bodies)
    ensures LastCancel(log + Stamp(first, now, bodies)) == LastCancel(log)
    decreases |bodies|
  {
    if bodies == [] {
      assert log + Stamp(first, now, bodies) == log;
    } else {
      var n := |bodies| - 1;
      var last := Event(first + n, now, bodies[n]);
      EditsHideNoCancel(log, first, now, bodies[..n]);
      LatestOfAppend(log + Stamp(first, now, bodies[..n]), last, IS_CANCEL);
      assert log + Stamp(first, now, bodies) == log + Stamp(first, now, bodies[..n]) + [last];
    }
  }

  // ---- One saved row ----

  lemma SaveShaped(db: Db, db': Db, card: Card, now: Time, bodies: seq<Body>)
    requires AllShaped(db) && card.id in db.cards && card.lane in db.lanes
    requires Save(db, card, now, bodies) == Success(db')
    requires Shaped(Grown(RecordOf(db, card.id), card, KeyOf(db, card), db.nextEvent, now, bodies))
    ensures AllShaped(db')
  {
    OwnRecord(db, db', card, now, bodies);
    forall d | d in db'.cards
      ensures Present(db', d) && Shaped(RecordOf(db', d))
    {
      if d != card.id {
        OtherRecord(db, db', card, now, bodies, d);
      }
    }
  }

  /** The same with a single event, which is not a cancellation. */
  lemma SaveOneShaped(db: Db, db': Db, card: Card, now: Time, b: Body)
    requires AllShaped(db) && card.id in db.cards && card.lane in db.lanes
    requires Save(db, card, now, [b]) == Success(db') && !b.CardCancelled?
    requires Fits(card, KeyOf(db, card)) && Undoable(card, db.log[card.id])
    ensures AllShaped(db')
  {
    OneMoreEvent(db.log[card.id], db.nextEvent, now, b);
    SaveShaped(db, db', card, now, [b]);
  }

  // ---- Field edits ----

  lemma EditedFits(db: Db, id: CardId, input: UpdateInput)
    requires WellFormed(db) && id in db.cards && Fits(db.cards[id], KeyOf(db, db.cards[id]))
    requires input.waitingReason.Some? || input.expectedResumeAt.Some? ==> KeyOf(db, db.cards[id]) == WaitingPartsVendor
    ensures Fits(EditAll(db, id, input).card, KeyOf(db, db.cards[id]))
  {
  }

  /** What a successful edit writes. */
  lemma UpdateWrites(x: Ctx, db: Db, id: CardId, input: UpdateInput)
    requires WellFormed(db) && Update(x, db, id, input).Success?
    ensures id in db.cards && db.cards[id].lane in db.lanes && db.cards[id].id == id
    ensures var (tags, folded) := WantedTags(db, id, input.tags);
            var draft := EditAll(db, id, input);
            && Drawn(db, id, draft, tags, folded) && draft.card.id in db.log
            && Update(x, db, id, input) == if draft.bodies == [] then Success(db.(tags := tags))
                 else Save(db.(tags := tags, cardTags := db.cardTags[id := folded]),
                           Edited(draft.card, x.now), x.now, draft.bodies)
    ensures input.waitingReason.Some? || input.expectedResumeAt.Some? ==> KeyOf(db, db.cards[id]) == WaitingPartsVendor
  {
    if input.tags.Some? { TagsResolved(db.tags, input.tags.value); }
  }

  predicate Drawn(db: Db, id: CardId, draft: Draft, tags: map<string, string>, folded: set<string>) {
    && id in db.cards && draft.card.id == id && OnlyEdited(db.cards[id], draft.card) && OnlyFieldChanges(draft.bodies)
    && folded + db.tags.Keys <= tags.Keys
  }

  lemma UpdateShaped(x: Ctx, db: Db, id: CardId, input: UpdateInput)
    requires WellFormed(db) && AllShaped(db) && Update(x, db, id, input).Success?
    ensures AllShaped(Update(x, db, id, input).value)
  {
    UpdateWrites(x, db, id, input);
    OneFits(db, id);
    EditedFits(db, id, input);
    var (tags, folded) := WantedTags(db, id, input.tags);
    WrittenShaped(db, Update(x, db, id, input).value, id, tags, folded, EditAll(db, id, input), x.now);
  }

  lemma WrittenShaped(db: Db, db': Db, id: CardId, tags: map<string, string>, folded: set<string>, draft: Draft, now: Time)
    requires AllShaped(db) && Drawn(db, id, draft, tags, folded) && id in db.log && db.cards[id].lane in db.lanes
    requires Fits(draft.card, KeyOf(db, db.cards[id]))
    requires Success(db') == if draft.bodies == [] then Success(db.(tags := tags))
                             else Save(db.(tags := tags, cardTags := db.cardTags[id := folded]),
                                       Edited(draft.card, now), now, draft.bodies)
    ensures AllShaped(db')
  {
    if draft.bodies == [] {
      RetaggedShaped(db, db');
    } else {
      DraftShaped(db, db', tags, folded, draft, now);
    }
  }

  lemma OneFits(db: Db, id: CardId)
    requires AllShaped(db) && id in db.cards && db.cards[id].lane in db.lanes
    ensures Fits(db.cards[id], KeyOf(db, db.cards[id]))
  {
    assert Shaped(RecordOf(db, id));
  }

  lemma DraftShaped(db: Db, db': Db, tags: map<string, string>, folded: set<string>, draft: Draft, now: Time)
    requires AllShaped(db) && draft.card.id in db.cards && folded + db.tags.Keys <= tags.Keys
    requires OnlyEdited(db.cards[draft.card.id], draft.card) && OnlyFieldChanges(draft.bodies)
    requires Fits(draft.card, KeyOf(db, db.cards[draft.card.id]))
    requires Save(db.(tags := tags, cardTags := db.cardTags[draft.card.id := folded]),
                  Edited(draft.card, now), now, draft.bodies) == Success(db')
    ensures AllShaped(db')
  {
    var id := draft.card.id;
    var retagged := db.(tags := tags, cardTags := db.cardTags[id := folded]);
    RetaggedShaped(db, retagged);
    assert Shaped(RecordOf(retagged, id));
    EditsHideNoCancel(db.log[id], db.nextEvent, now, draft.bodies);
    SaveShaped(retagged, db', Edited(draft.card, now), now, draft.bodies);
  }

  /** Tags have no part in the shape. */
  lemma RetaggedShaped(db: Db, db': Db)
    requires AllShaped(db)
    requires db' == db.(tags := db'.tags, cardTags := db'.cardTags)
    requires forall c :: c in db.cards ==> c in db'.cardTags && db'.cardTags[c] <= db'.tags.Keys
    ensures AllShaped(db')
  {
    forall c | c in db'.cards
      ensures Present(db', c) && Shaped(RecordOf(db', c))
    {
      assert RecordOf(db', c) == RecordOf(db, c).(tags := RecordOf(db', c).tags);
    }
  }

  // ---- Creation and its exact condition ----

  predicate SafeKey(key: LaneKey) {
    key != Done && key != WaitingPartsVendor && key != InProgress
  }

  predicate SafeEntry(db: Db, board: BoardId)
    requires WellFormed(db)
  {
    FirstLane(db, board).Some? ==> SafeKey(db.lanes[FirstLane(db, board).value].key)
  }

  /** A creation keeps the rule if and only if the first column's key carries no behaviour. */
  lemma CreateShapedIff(x: Ctx, db: Db, board: BoardId, input: CreateInput)
    requires WellFormed(db) && AllShaped(db) && Create(x, db, board, input).Success?
    ensures AllShaped(Create(x, db, board, input).value) <==> SafeEntry(db, board)
  {
    TagsResolved(db.tags, input.tags);
    var (tags, folded) := ResolveTags(db.tags, input.tags);
    var card := NewCard(x, db, board, FirstLane(db, board).value, input);
    InsertShaped(db, Create(x, db, board, input).value, card, x.now, tags, folded);
    assert Fits(card, KeyOf(db, card)) <==> SafeKey(KeyOf(db, card));
  }

  lemma InsertShaped(db: Db, db': Db, card: Card, now: Time, tags: map<string, string>, folded: set<string>)
    requires AllShaped(db) && card.id !in db.cards && card.lane in db.lanes && card.resolution.None?
    requires KeysRecorded(db.lanes, db.keyEver)
    requires folded <= tags.Keys && db.tags.Keys <= tags.Keys
    requires Insert(db, card, now, tags, folded) == Success(db')
    ensures AllShaped(db') <==> Fits(card, KeyOf(db, card))
  {
    assert db'.log[card.id][0].body == Created(card, TagNames(tags, folded));
    assert Present(db', card.id);
    assert Shaped(RecordOf(db', card.id)) <==> Fits(card, KeyOf(db, card));
    forall d | d in db.cards
      ensures Present(db', d) && Shaped(RecordOf(db', d))
    {
      assert RecordOf(db', d) == RecordOf(db, d).(tags := RecordOf(db', d).tags);
    }
  }

  // ---- Moves ----

  lemma RelocatedFits(card: Card, from: LaneKey, lane: LaneId, input: MoveInput, position: Key, now: Time)
    requires Fits(card, from) && card.archivedAt.None? && (lane == card.lane <==> from == input.to)
    requires from != input.to && input.to == WaitingPartsVendor ==> input.waitingReason.Some? && input.expectedResumeAt.Some?
    ensures var row := Relocated(card, from, lane, input.to, position, input.waitingReason, input.expectedResumeAt, now);
            && Fits(row, input.to)
            && (IsCancelled(row) ==> row.resolution == card.resolution && row.workStartedAt == card.workStartedAt)
  {
  }

  lemma MovedFits(x: Ctx, db: Db, id: CardId, input: MoveInput)
    requires WellFormed(db) && RefuseMove(x, db, id, input).None? && Fits(db.cards[id], KeyOf(db, db.cards[id]))
    ensures var row := MovedRow(x, db, id, input);
            && row.id == id && row.lane in db.lanes && Fits(row, KeyOf(db, row))
            && (IsCancelled(row) ==> row.resolution == db.cards[id].resolution && row.workStartedAt == db.cards[id].workStartedAt)
  {
    var card, lane := db.cards[id], LaneByKey(db, db.cards[id].board, input.to).value;
    RelocatedFits(card, KeyOf(db, card), lane, input, MovedRow(x, db, id, input).position, x.now);
  }

  lemma MoveShaped(x: Ctx, db: Db, id: CardId, input: MoveInput)
    requires WellFormed(db) && AllShaped(db) && Move(x, db, id, input).Success?
    ensures AllShaped(Move(x, db, id, input).value)
  {
    assert Shaped(RecordOf(db, id));
    MovedFits(x, db, id, input);
    SaveOneShaped(db, Move(x, db, id, input).value, MovedRow(x, db, id, input), x.now, MovedBody(db, id, input));
  }

  // ---- Cancel and reopen ----

  lemma CancelledFits(x: Ctx, db: Db, id: CardId, resolution: Resolution, version: nat)
    requires WellFormed(db) && RefuseCancel(x, db, id, resolution, version).None? && Fits(db.cards[id], KeyOf(db, db.cards[id]))
    ensures var card := db.cards[id];
            var row := CancelledRow(x, db, id, resolution, LaneByKey(db, card.board, Done).value);
            var c := CancellationOf(db, card, resolution);
            && row.id == id && row.lane in db.lanes && KeyOf(db, row) == Done && Fits(row, Done)
            && RecordsUndo(row, c)
  {
  }

  lemma CancelShaped(x: Ctx, db: Db, id: CardId, resolution: Resolution, version: nat)
    requires WellFormed(db) && AllShaped(db) && Cancel(x, db, id, resolution, version).Success?
    ensures AllShaped(Cancel(x, db, id, resolution, version).value)
  {
    var card := db.cards[id];
    OneFits(db, id);
    CancelledFits(x, db, id, resolution, version);
    var row := CancelledRow(x, db, id, resolution, LaneByKey(db, card.board, Done).value);
    SaveCancelShaped(db, Cancel(x, db, id, resolution, version).value, row, x.now, CancellationOf(db, card, resolution));
  }

  lemma SaveCancelShaped(db: Db, db': Db, row: Card, now: Time, c: Cancellation)
    requires AllShaped(db) && row.id in db.cards && row.lane in db.lanes
    requires Save(db, row, now, [CardCancelled(c)]) == Success(db')
    requires KeyOf(db, row) == Done && Fits(row, Done)
    requires RecordsUndo(row, c)
    ensures AllShaped(db')
  {
    OneMoreEvent(db.log[row.id], db.nextEvent, now, CardCancelled(c));
    SaveShaped(db, db', row, now, [CardCancelled(c)]);
  }

  /** A vendor cancellation without a recorded reason never happens, so nothing restorable is lost to that case. */
  lemma VendorFallbackUnreachable(db: Db, id: CardId)
    requires WellFormed(db) && AllShaped(db) && id in db.cards && IsCancelled(db.cards[id])
    ensures LastCancel(db.log[id]).Some? && Restorable(db, db.cards[id]) == LastCancel(db.log[id])
  {
    assert Shaped(RecordOf(db, id));
  }

  /** The reopened card goes to the first column because there is neither a lane to restore nor a ready lane. */
  predicate FallsToEntry(db: Db, id: CardId)
    requires WellFormed(db)
  {
    id in db.cards && RestoredLane(db, db.cards[id]).None? && LaneByKey(db, db.cards[id].board, Ready).None?
  }

  lemma ReopenedFits(x: Ctx, db: Db, id: CardId, version: nat)
    requires WellFormed(db) && RefuseReopen(x, db, id, version).None?
    requires Fits(db.cards[id], Done) && Undoable(db.cards[id], db.log[id])
    ensures var row := ReopenedRow(x, db, id);
            && row.id == id && row.lane in db.lanes && row.resolution.None?
            && (!FallsToEntry(db, id) ==> Fits(row, KeyOf(db, row)) && KeyOf(db, row) != Done)
            && (FallsToEntry(db, id) ==> FirstLane(db, db.cards[id].board) == Some(row.lane))
            && (FallsToEntry(db, id) ==> (Fits(row, KeyOf(db, row)) <==> SafeKey(KeyOf(db, row))))
  {
  }

  /** A reopen keeps the rule if and only if it need not fall back to a first column that carries behaviour. */
  lemma ReopenShapedIff(x: Ctx, db: Db, id: CardId, version: nat)
    requires WellFormed(db) && AllShaped(db) && Reopen(x, db, id, version).Success?
    ensures AllShaped(Reopen(x, db, id, version).value)
            <==> (FallsToEntry(db, id) ==> SafeEntry(db, db.cards[id].board))
  {
    assert Shaped(RecordOf(db, id));
    ReopenedFits(x, db, id, version);
    var row := ReopenedRow(x, db, id);
    var db' := Reopen(x, db, id, version).value;
    var b := Reopened(db.lanes[ReopenTarget(db, db.cards[id]).value].key);
    OwnRecord(db, db', row, x.now, [b]);
    if Fits(row, KeyOf(db, row)) {
      SaveOneShaped(db, db', row, x.now, b);
    } else {
      assert !Shaped(RecordOf(db', id));
    }
  }

  // ---- The rest ----

  lemma InPlaceShaped(db: Db, db': Db, card: Card, now: Time, b: Body)
    requires AllShaped(db) && card.id in db.cards && card.lane == db.cards[card.id].lane
    requires Save(db, card, now, [b]) == Success(db') && !b.Reopened? && !b.CardCancelled?
    requires Fits(card, KeyOf(db, db.cards[card.id]))
    requires card.resolution == db.cards[card.id].resolution && card.workStartedAt == db.cards[card.id].workStartedAt
    ensures AllShaped(db')
  {
    assert Shaped(RecordOf(db, card.id));
    SaveOneShaped(db, db', card, now, b);
  }

  lemma SetBlockedShaped(x: Ctx, db: Db, id: CardId, reason: Option<string>, version: nat)
    requires WellFormed(db) && AllShaped(db) && SetBlocked(x, db, id, reason, version).Success?
    ensures AllShaped(SetBlocked(x, db, id, reason, version).value)
  {
    assert Shaped(RecordOf(db, id));
    InPlaceShaped(db, SetBlocked(x, db, id, reason, version).value, BlockedRow(db.cards[id], reason, x.now), x.now,
                  if reason.Some? then BlockRaised(reason.value) else BlockCleared);
  }

  lemma ArchiveShaped(x: Ctx, db: Db, id: CardId, version: nat)
    requires WellFormed(db) && AllShaped(db) && Archive(x, db, id, version).Success?
    ensures AllShaped(Archive(x, db, id, version).value)
  {
    assert Shaped(RecordOf(db, id));
    InPlaceShaped(db, Archive(x, db, id, version).value, ArchivedRow(db.cards[id], x.now), x.now, CardArchived);
  }

  lemma ArchiveOneShaped(now: Time, db: Db, id: CardId, lane: LaneId, cutoff: Time)
    requires WellFormed(db) && AllShaped(db) && FromDone(db, DoArchiveOne(id, lane, cutoff))
    ensures AllShaped(ArchiveOne(now, db, id, lane, cutoff).value)
  {
    ArchiveOneKeeps(now, db, id, lane, cutoff);
    var db' := ArchiveOne(now, db, id, lane, cutoff).value;
    if db' != db {
      assert Shaped(RecordOf(db, id));
      InPlaceShaped(db, db', ArchivedRow(db.cards[id], now), now, CardArchived);
    }
  }

  lemma NoteShaped(x: Ctx, db: Db, id: CardId)
    requires WellFormed(db) && AllShaped(db) && Note(x, db, id).Success?
    ensures AllShaped(Note(x, db, id).value)
  {
    assert Shaped(RecordOf(db, id));
    InPlaceShaped(db, Note(x, db, id).value, db.cards[id], x.now, Noted);
  }

  /** Steps that leave lane keys, trails and every field the rule reads as they were. */
  lemma SilentShaped(db: Db, db': Db)
    requires AllShaped(db) && db'.cards.Keys <= db.cards.Keys
    requires db'.tags == db.tags
    requires forall l :: l in db.keyEver ==> l in db'.keyEver && db'.keyEver[l] == db.keyEver[l]
    requires forall c :: c in db'.cards && c in db.log && c in db.cardTags ==>
               c in db'.log && db'.log[c] == db.log[c] && c in db'.cardTags && db'.cardTags[c] == db.cardTags[c]
    requires forall c :: c in db'.cards && db.cards[c].lane in db.lanes ==>
               && db'.cards[c].lane in db'.lanes && KeyOf(db', db'.cards[c]) == KeyOf(db, db.cards[c])
               && db'.cards[c].resolution == db.cards[c].resolution && db'.cards[c].workStartedAt == db.cards[c].workStartedAt
               && (Fits(db.cards[c], KeyOf(db, db.cards[c])) ==> Fits(db'.cards[c], KeyOf(db, db.cards[c])))
    ensures AllShaped(db')
  {
    forall c | c in db'.cards
      ensures Present(db', c) && Shaped(RecordOf(db', c))
    {
      assert Shaped(RecordOf(db, c));
      assert RecordOf(db', c) == RecordOf(db, c).(card := db'.cards[c]);
    }
  }

  lemma ClaimShaped(x: Ctx, db: Db)
    requires AllShaped(db)
    ensures AllShaped(ClaimOverdue(x, db).value)
  {
    var db' := ClaimOverdue(x, db).value;
    forall c | c in db.cards && db.cards[c].lane in db.lanes
      ensures db'.cards[c] == db.cards[c].(resumeAlertedAt := db'.cards[c].resumeAlertedAt)
      ensures Fits(db.cards[c], KeyOf(db, db.cards[c])) ==> Fits(db'.cards[c], KeyOf(db, db.cards[c]))
    {
    }
    SilentShaped(db, db');
  }

  lemma DiscardShaped(x: Ctx, db: Db, id: CardId, version: nat)
    requires WellFormed(db) && AllShaped(db) && Discard(x, db, id, version).Success?
    ensures AllShaped(Discard(x, db, id, version).value)
  {
    DiscardedShaped(db, id);
  }

  lemma DiscardedShaped(db: Db, id: CardId)
    requires AllShaped(db)
    ensures AllShaped(db.(cards := db.cards - {id}, log := db.log - {id}, cardTags := db.cardTags - {id}))
  {
    SilentShaped(db, db.(cards := db.cards - {id}, log := db.log - {id}, cardTags := db.cardTags - {id}));
  }

  lemma ForgetShaped(db: Db, gone: set<LocationId>)
    requires AllShaped(db)
    ensures AllShaped(ForgetLocations(db, gone).value)
  {
    SilentShaped(db, ForgetLocations(db, gone).value);
  }

  lemma CreateLaneShaped(x: Ctx, db: Db, board: BoardId, id: LaneId, key: LaneKey, wip: Option<nat>)
    requires WellFormed(db) && AllShaped(db) && CreateLane(x, db, board, id, key, wip).Success?
    ensures AllShaped(CreateLane(x, db, board, id, key, wip).value)
  {
    CreateLaneAdds(x, db, board, id, key, wip);
    AddLaneShaped(db, id, Lane(board, key, LastLanePosition(db, board) + 1, wip));
  }

  lemma AddLaneShaped(db: Db, id: LaneId, lane: Lane)
    requires AllShaped(db) && id !in db.keyEver && id !in db.lanes
    ensures AllShaped(AddLane(db, id, lane))
  {
    SilentShaped(db, AddLane(db, id, lane));
  }

  lemma LimitLaneShaped(x: Ctx, db: Db, board: BoardId, id: LaneId, wip: Option<nat>)
    requires AllShaped(db) && LimitLane(x, db, board, id, wip).Success?
    ensures AllShaped(LimitLane(x, db, board, id, wip).value)
  {
    SilentShaped(db, LimitLane(x, db, board, id, wip).value);
  }

  lemma RemoveLaneShaped(x: Ctx, db: Db, board: BoardId, id: LaneId)
    requires AllShaped(db) && RemoveLane(x, db, board, id).Success?
    ensures AllShaped(RemoveLane(x, db, board, id).value)
  {
    NobodyLeft(db.cards, id);
    LaneGoneShaped(db, id);
  }

  lemma LaneGoneShaped(db: Db, id: LaneId)
    requires AllShaped(db) && forall c :: c in db.cards ==> db.cards[c].lane != id
    ensures AllShaped(db.(lanes := db.lanes - {id}))
  {
    SilentShaped(db, db.(lanes := db.lanes - {id}));
  }

  lemma ReorderShaped(x: Ctx, db: Db, board: BoardId, order: seq<LaneId>)
    requires AllShaped(db) && ReorderLanes(x, db, board, order).Success?
    ensures AllShaped(ReorderLanes(x, db, board, order).value)
  {
    SilentShaped(db, ReorderLanes(x, db, board, order).value);
  }

  lemma OpenShaped(x: Ctx, db: Db, board: BoardId, ids: seq<LaneId>)
    requires WellFormed(db) && AllShaped(db) && OpenBoard(x, db, board, ids).Success?
    ensures AllShaped(OpenBoard(x, db, board, ids).value)
  {
    AddBoardShaped(db, board, DefaultLanes(board, ids));
  }

  lemma AddBoardShaped(db: Db, board: BoardId, lanes: map<LaneId, Lane>)
    requires AllShaped(db) && KeysRecorded(db.lanes, db.keyEver) && forall l :: l in lanes ==> l !in db.keyEver
    ensures AllShaped(AddBoard(db, board, lanes))
  {
    SilentShaped(db, AddBoard(db, board, lanes));
  }

  /** On a board just opened the entry lane carries no behaviour. */
  lemma OpenedIsSafe(x: Ctx, db: Db, board: BoardId, ids: seq<LaneId>)
    requires WellFormed(db) && OpenBoard(x, db, board, ids).Success?
    ensures WellFormed(OpenBoard(x, db, board, ids).value) && SafeEntry(OpenBoard(x, db, board, ids).value, board)
  {
    OpenBoardKeeps(x, db, board, ids);
    var db' := OpenBoard(x, db, board, ids).value;
    assert ids[0] in DefaultLanes(board, ids) && Rank(ids, ids[0]) == 0;
    assert ids[0] in LanesOf(db', board);
    var first := FirstLane(db', board).value;
    assert first !in LanesOf(db, board);
    assert Rank(ids, first) == 0;
  }

  lemma HideShaped(x: Ctx, db: Db, board: BoardId)
    requires AllShaped(db) && HideBoard(x, db, board).Success?
    ensures AllShaped(HideBoard(x, db, board).value)
  {
    SilentShaped(db, HideBoard(x, db, board).value);
  }

  lemma RebalanceShaped(x: Ctx, db: Db, lane: LaneId)
    requires WellFormed(db) && AllShaped(db)
    ensures AllShaped(Rebalance(x, db, lane).value)
  {
    OnlyPositionsMove(x, db, lane);
    RekeyedShaped(db, Rebalance(x, db, lane).value);
  }

  lemma RekeyedShaped(db: Db, db': Db)
    requires AllShaped(db) && db' == db.(cards := db'.cards) && db'.cards.Keys == db.cards.Keys
    requires forall c :: c in db.cards ==> db'.cards[c] == db.cards[c].(position := db'.cards[c].position)
    ensures AllShaped(db')
  {
    SilentShaped(db, db');
  }

  // ---- Any command ----

  /** The command drops no card into a first column that carries behaviour. */
  predicate LandsSafely(db: Db, c: Command)
    requires WellFormed(db)
  {
    && (c.DoCreate? ==> SafeEntry(db, c.board))
    && (c.DoReopen? && FallsToEntry(db, c.id) ==> SafeEntry(db, db.cards[c.id].board))
  }

  /** Nor does a command that is refused. */
  predicate EntrySafe(x: Ctx, db: Db, c: Command)
    requires WellFormed(db)
  {
    Execute(x, db, c).Success? ==> LandsSafely(db, c)
  }

  lemma AdministrativeShaped(x: Ctx, db: Db, c: Command)
    requires WellFormed(db) && AllShaped(db) && IsAdministrative(c) && Execute(x, db, c).Success?
    ensures AllShaped(Execute(x, db, c).value)
  {
    match c
    case DoClaim => ClaimShaped(x, db);
    case DoCreateLane(board, lane, key, wip) => CreateLaneShaped(x, db, board, lane, key, wip);
    case DoLimitLane(board, lane, wip) => LimitLaneShaped(x, db, board, lane, wip);
    case DoRemoveLane(board, lane) => RemoveLaneShaped(x, db, board, lane);
    case DoReorderLanes(board, order) => ReorderShaped(x, db, board, order);
    case DoOpenBoard(board, ids) => OpenShaped(x, db, board, ids);
    case DoHideBoard(board) => HideShaped(x, db, board);
    case DoForgetLocations(gone) => ForgetShaped(db, gone);
    case DoRebalance(lane) => RebalanceShaped(x, db, lane);
  }

  lemma CardStepShapedIff(x: Ctx, db: Db, c: Command)
    requires WellFormed(db) && AllShaped(db) && FromDone(db, c) && !IsAdministrative(c) && Execute(x, db, c).Success?
    ensures AllShaped(Execute(x, db, c).value) <==> LandsSafely(db, c)
  {
    match c
    case DoCreate(board, input) => CreateShapedIff(x, db, board, input);
    case DoUpdate(id, input) => UpdateShaped(x, db, id, input);
    case DoMove(id, input) => MoveShaped(x, db, id, input);
    case DoCancel(id, resolution, version) => CancelShaped(x, db, id, resolution, version);
    case DoReopen(id, version) => ReopenShapedIff(x, db, id, version);
    case DoArchive(id, version) => ArchiveShaped(x, db, id, version);
    case DoArchiveOne(id, lane, cutoff) => ArchiveOneShaped(x.now, db, id, lane, cutoff);
    case DoSetBlocked(id, reason, version) => SetBlockedShaped(x, db, id, reason, version);
    case DoNote(id) => NoteShaped(x, db, id);
    case DoDiscard(id, version) => DiscardShaped(x, db, id, version);
  }

  /** The one way to break the rule is to drop a card into a first column that carries behaviour. */
  lemma StepShapedIff(x: Ctx, db: Db, c: Command)
    requires WellFormed(db) && AllShaped(db) && FromDone(db, c)
    ensures AllShaped(Step(x, db, c)) <==> EntrySafe(x, db, c)
  {
    if Execute(x, db, c).Success? {
      SuccessShapedIff(x, db, c);
    }
  }

  lemma SuccessShapedIff(x: Ctx, db: Db, c: Command)
    requires WellFormed(db) && AllShaped(db) && FromDone(db, c) && Execute(x, db, c).Success?
    ensures AllShaped(Execute(x, db, c).value) <==> LandsSafely(db, c)
  {
    if IsAdministrative(c) {
      AdministrativeShaped(x, db, c);
    } else {
      CardStepShapedIff(x, db, c);
    }
  }
}
