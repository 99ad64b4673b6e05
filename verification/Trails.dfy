/** Every command keeps every trail true: replaying a card's events always gives the card. */
module Trails {
  import opened Wrappers
  import opened Domain
  import opened Audit
  import opened Store
  import opened LaneOrder
  import opened Commands
  import opened Integrity
  import opened Records

  // ---- Field edits ----

  /** The draft's events lead from the card's first view to the draft's row. */
  ghost predicate Tracks(v: View, d: Draft, key: LaneKey, tags: set<string>) {
    ExplainsAll(v, d.bodies) && ApplyAll(v, d.bodies) == ViewOf(d.card, key, tags)
  }

  lemma EditTracks(v: View, d: Draft, card: Card, c: FieldChange, key: LaneKey, tags: set<string>, tags': set<string>)
    requires Tracks(v, d, key, tags) && d.card.archivedAt.None?
    requires ChangeExplains(ViewOf(d.card, key, tags), c)
    requires ApplyChange(ViewOf(d.card, key, tags), c) == ViewOf(card, key, tags')
    ensures Tracks(v, Draft(card, d.bodies + [FieldChanged(c)]), key, tags')
  {
    ApplyOneMore(v, d.bodies, FieldChanged(c));
  }

  lemma TextEditsTrack(v: View, d: Draft, input: UpdateInput, key: LaneKey, tags: set<string>)
    requires Tracks(v, d, key, tags) && d.card.archivedAt.None?
    ensures Tracks(v, EditDescription(EditTitle(d, input.title), input.description), key, tags)
  {
    var d1 := EditTitle(d, input.title);
    if d1 != d {
      EditTracks(v, d, d1.card, TitleChange(d.card.title, input.title.value), key, tags, tags);
    }
    var d2 := EditDescription(d1, input.description);
    if d2 != d1 {
      EditTracks(v, d1, d2.card, DescriptionChange(d1.card.description, input.description.value), key, tags, tags);
    }
  }

  lemma PlanEditsTrack(v: View, d: Draft, input: UpdateInput, key: LaneKey, tags: set<string>)
    requires Tracks(v, d, key, tags) && d.card.archivedAt.None?
    ensures Tracks(v, EditEstimate(EditPriority(d, input.priority), input.estimate), key, tags)
  {
    var d1 := EditPriority(d, input.priority);
    if d1 != d {
      EditTracks(v, d, d1.card, PriorityChange(d.card.priority, input.priority.value), key, tags, tags);
    }
    var d2 := EditEstimate(d1, input.estimate);
    if d2 != d1 {
      EditTracks(v, d1, d2.card, EstimateChange(d1.card.estimate, input.estimate.value), key, tags, tags);
    }
  }

  lemma PlaceEditsTrack(v: View, d: Draft, input: UpdateInput, key: LaneKey, tags: set<string>)
    requires Tracks(v, d, key, tags) && d.card.archivedAt.None?
    ensures Tracks(v, EditLocation(EditAssignee(d, input.assignee), input.location), key, tags)
  {
    var d1 := EditAssignee(d, input.assignee);
    if d1 != d {
      EditTracks(v, d, d1.card, AssigneeChange(d.card.assignee, input.assignee.value), key, tags, tags);
    }
    var d2 := EditLocation(d1, input.location);
    if d2 != d1 {
      EditTracks(v, d1, d2.card, LocationChange(d1.card.location, input.location.value), key, tags, tags);
    }
  }

  lemma WaitingEditsTrack(v: View, d: Draft, input: UpdateInput, key: LaneKey, tags: set<string>)
    requires Tracks(v, d, key, tags) && d.card.archivedAt.None?
    requires input.waitingReason.Some? || input.expectedResumeAt.Some? ==> key == WaitingPartsVendor
    ensures Tracks(v, EditResume(EditReason(d, input.waitingReason), input.expectedResumeAt), key, tags)
  {
    var d1 := EditReason(d, input.waitingReason);
    if d1 != d {
      EditTracks(v, d, d1.card, ReasonChange(d.card.waitingReason, input.waitingReason), key, tags, tags);
    }
    var d2 := EditResume(d1, input.expectedResumeAt);
    if d2 != d1 {
      EditTracks(v, d1, d2.card, ResumeChange(d1.card.expectedResumeAt, input.expectedResumeAt), key, tags, tags);
    }
  }

  /** Different folded names stand for different stored names. */
  lemma NamesTellTagsApart(tags: map<string, string>, tags': map<string, string>, a: set<string>, b: set<string>)
    requires TagsFolded(tags) && TagsFolded(tags') && a <= tags.Keys && b <= tags'.Keys
    requires TagNames(tags, a) == TagNames(tags', b)
    ensures a == b
  {
    forall f
      ensures f in a <==> f in b
    {
      if f in a {
        assert tags[f] in TagNames(tags', b);
        var g :| g in b && tags'[g] == tags[f];
      }
      if f in b {
        assert tags'[f] in TagNames(tags, a);
        var g :| g in a && tags[g] == tags'[f];
      }
    }
  }

  lemma UpdateTracks(x: Ctx, db: Db, id: CardId, input: UpdateInput)
    requires WellFormed(db) && id in db.cards && RefuseUpdate(x, db, id, input).None?
    ensures var key, tags := KeyOf(db, db.cards[id]), TagNames(db.tags, db.cardTags[id]);
            var (tags', folded) := WantedTags(db, id, input.tags);
            Tracks(ViewOf(db.cards[id], key, tags), EditAll(db, id, input), key, TagNames(tags', folded))
  {
    var card, key, tags := db.cards[id], KeyOf(db, db.cards[id]), TagNames(db.tags, db.cardTags[id]);
    var v := ViewOf(card, key, tags);
    var d0 := Draft(card, []);
    var d1 := EditDescription(EditTitle(d0, input.title), input.description);
    TextEditsTrack(v, d0, input, key, tags);
    var d2 := EditEstimate(EditPriority(d1, input.priority), input.estimate);
    PlanEditsTrack(v, d1, input, key, tags);
    var d3 := EditLocation(EditAssignee(d2, input.assignee), input.location);
    PlaceEditsTrack(v, d2, input, key, tags);
    var (tags', folded) := WantedTags(db, id, input.tags);
    if input.tags.Some? { TagsResolved(db.tags, input.tags.value); }
    var names := TagNames(tags', folded);
    var d4 := EditTags(d3, folded != db.cardTags[id], tags, names);
    if folded != db.cardTags[id] {
      if names == tags { NamesTellTagsApart(db.tags, tags', db.cardTags[id], folded); }
      EditTracks(v, d3, d3.card, TagsChange(tags, names), key, tags, names);
    } else {
      assert names == tags;
    }
    WaitingEditsTrack(v, d4, input, key, names);
  }

  // ---- Each command ----

  /** New tag rows change no existing record. */
  lemma RetaggedOther(db: Db, db': Db, d: CardId)
    requires Present(db, d)
    requires db'.cards == db.cards && db'.log == db.log && db'.lanes == db.lanes && db'.keyEver == db.keyEver
    requires d in db'.cardTags && db'.cardTags[d] == db.cardTags[d]
    requires forall f :: f in db.tags ==> f in db'.tags && db'.tags[f] == db.tags[f]
    ensures Present(db', d) && RecordOf(db', d) == RecordOf(db, d)
  {
    assert TagNames(db'.tags, db.cardTags[d]) == TagNames(db.tags, db.cardTags[d]);
  }

  lemma UpdateTraced(x: Ctx, db: Db, id: CardId, input: UpdateInput)
    requires WellFormed(db) && AllTraced(db) && Update(x, db, id, input).Success?
    ensures AllTraced(Update(x, db, id, input).value)
  {
    var (tags, folded) := WantedTags(db, id, input.tags);
    if input.tags.Some? { TagsResolved(db.tags, input.tags.value); }
    var draft := EditAll(db, id, input);
    UpdateTracks(x, db, id, input);
    if draft.bodies == [] {
      forall d | d in db.cards
        ensures Present(db.(tags := tags), d) && Traced(RecordOf(db.(tags := tags), d))
      {
        RetaggedOther(db, db.(tags := tags), d);
      }
    } else {
      RetaggedTraced(db, Update(x, db, id, input).value, id, tags, folded, draft, x.now);
    }
  }

  /** Saving a draft over new tag rows. */
  lemma RetaggedTraced(db: Db, db': Db, id: CardId, tags: map<string, string>, folded: set<string>, draft: Draft, now: Time)
    requires AllTraced(db) && id in db.cards && draft.card.id == id && draft.card.lane == db.cards[id].lane
    requires folded <= tags.Keys && forall f :: f in db.tags ==> f in tags && tags[f] == db.tags[f]
    requires var r := RecordOf(db, id);
             Tracks(ViewOf(r.card, r.key, r.tags), draft, r.key, TagNames(tags, folded))
    requires Save(db.(tags := tags, cardTags := db.cardTags[id := folded]), Edited(draft.card, now), now, draft.bodies)
             == Success(db')
    ensures AllTraced(db')
  {
    var retagged := db.(tags := tags, cardTags := db.cardTags[id := folded]);
    var card := Edited(draft.card, now);
    forall d | d in db'.cards
      ensures Present(db', d) && Traced(RecordOf(db', d))
    {
      if d != id {
        RetaggedOther(db, retagged, d);
        OtherRecord(retagged, db', card, now, draft.bodies, d);
      } else {
        assert Present(retagged, id);
        OwnRecord(retagged, db', card, now, draft.bodies);
        var r := RecordOf(db, id);
        assert RecordOf(retagged, id) == r.(tags := TagNames(tags, folded));
        AppendAll(r.bornIn, r.log, db.nextEvent, now, draft.bodies);
      }
    }
  }

  lemma CreateTraced(x: Ctx, db: Db, board: BoardId, input: CreateInput)
    requires WellFormed(db) && AllTraced(db) && Create(x, db, board, input).Success?
    ensures AllTraced(Create(x, db, board, input).value)
  {
    TagsResolved(db.tags, input.tags);
    var (tags, folded) := ResolveTags(db.tags, input.tags);
    var card := NewCard(x, db, board, FirstLane(db, board).value, input);
    InsertTraced(db, Create(x, db, board, input).value, card, x.now, tags, folded);
  }

  lemma InsertTraced(db: Db, db': Db, card: Card, now: Time, tags: map<string, string>, folded: set<string>)
    requires AllTraced(db) && card.id !in db.cards && card.lane in db.lanes
    requires KeysRecorded(db.lanes, db.keyEver)
    requires folded <= tags.Keys && forall f :: f in db.tags ==> f in tags && tags[f] == db.tags[f]
    requires Insert(db, card, now, tags, folded) == Success(db')
    ensures AllTraced(db')
  {
    forall d | d in db'.cards
      ensures Present(db', d) && Traced(RecordOf(db', d))
    {
      if d != card.id {
        assert TagNames(tags, db.cardTags[d]) == TagNames(db.tags, db.cardTags[d]);
        assert RecordOf(db', d) == RecordOf(db, d);
      } else {
        assert db'.log[d][0].body == Created(card, TagNames(tags, folded));
      }
    }
  }

  /** A cross-lane move changes the lane key, because keys are unique on a board. */
  lemma MoveExplained(x: Ctx, db: Db, id: CardId, input: MoveInput, tags: set<string>)
    requires WellFormed(db) && RefuseMove(x, db, id, input).None?
    ensures var row, v := MovedRow(x, db, id, input), ViewOf(db.cards[id], KeyOf(db, db.cards[id]), tags);
            && row.id == id && row.lane in db.lanes
            && Explains(v, MovedBody(db, id, input))
            && Apply(v, MovedBody(db, id, input)) == ViewOf(row, KeyOf(db, row), tags)
  {
  }

  lemma MoveTraced(x: Ctx, db: Db, id: CardId, input: MoveInput)
    requires WellFormed(db) && AllTraced(db) && Move(x, db, id, input).Success?
    ensures AllTraced(Move(x, db, id, input).value)
  {
    MoveExplained(x, db, id, input, RecordOf(db, id).tags);
    SaveOneTraced(db, Move(x, db, id, input).value, MovedRow(x, db, id, input), x.now, MovedBody(db, id, input));
  }

  lemma CancelExplained(x: Ctx, db: Db, id: CardId, resolution: Resolution, version: nat, tags: set<string>)
    requires WellFormed(db) && RefuseCancel(x, db, id, resolution, version).None?
    ensures var card := db.cards[id];
            var row := CancelledRow(x, db, id, resolution, LaneByKey(db, card.board, Done).value);
            var v := ViewOf(card, KeyOf(db, card), tags);
            var b := CardCancelled(CancellationOf(db, card, resolution));
            && row.id == id && row.lane in db.lanes && Explains(v, b) && Apply(v, b) == ViewOf(row, KeyOf(db, row), tags)
  {
  }

  lemma CancelTraced(x: Ctx, db: Db, id: CardId, resolution: Resolution, version: nat)
    requires WellFormed(db) && AllTraced(db) && Cancel(x, db, id, resolution, version).Success?
    ensures AllTraced(Cancel(x, db, id, resolution, version).value)
  {
    var card := db.cards[id];
    CancelExplained(x, db, id, resolution, version, RecordOf(db, id).tags);
    SaveOneTraced(db, Cancel(x, db, id, resolution, version).value,
                  CancelledRow(x, db, id, resolution, LaneByKey(db, card.board, Done).value), x.now,
                  CardCancelled(CancellationOf(db, card, resolution)));
  }

  lemma ReopenTraced(x: Ctx, db: Db, id: CardId, version: nat)
    requires WellFormed(db) && AllTraced(db) && Reopen(x, db, id, version).Success?
    ensures AllTraced(Reopen(x, db, id, version).value)
  {
    SaveOneTraced(db, Reopen(x, db, id, version).value, ReopenedRow(x, db, id), x.now,
                  Reopened(db.lanes[ReopenTarget(db, db.cards[id]).value].key));
  }

  lemma ArchiveTraced(x: Ctx, db: Db, id: CardId, version: nat)
    requires WellFormed(db) && AllTraced(db) && Archive(x, db, id, version).Success?
    ensures AllTraced(Archive(x, db, id, version).value)
  {
    SaveOneTraced(db, Archive(x, db, id, version).value, ArchivedRow(db.cards[id], x.now), x.now, CardArchived);
  }

  /** The nightly job only archives cards of a done lane, so its candidates must come from one. */
  lemma ArchiveOneTraced(now: Time, db: Db, id: CardId, lane: LaneId, cutoff: Time)
    requires WellFormed(db) && AllTraced(db)
    requires lane in db.lanes ==> db.lanes[lane].key == Done
    ensures AllTraced(ArchiveOne(now, db, id, lane, cutoff).value)
  {
    ArchiveOneKeeps(now, db, id, lane, cutoff);
    var db' := ArchiveOne(now, db, id, lane, cutoff).value;
    if db' != db {
      SaveOneTraced(db, db', ArchivedRow(db.cards[id], now), now, CardArchived);
    }
  }

  lemma BlockExplained(card: Card, key: LaneKey, tags: set<string>, reason: Option<string>, now: Time)
    requires card.archivedAt.None? && card.blocked != reason.Some?
    ensures var b := if reason.Some? then BlockRaised(reason.value) else BlockCleared;
            && Explains(ViewOf(card, key, tags), b)
            && Apply(ViewOf(card, key, tags), b) == ViewOf(BlockedRow(card, reason, now), key, tags)
  {
  }

  lemma SetBlockedTraced(x: Ctx, db: Db, id: CardId, reason: Option<string>, version: nat)
    requires WellFormed(db) && AllTraced(db) && SetBlocked(x, db, id, reason, version).Success?
    ensures AllTraced(SetBlocked(x, db, id, reason, version).value)
  {
    var r := RecordOf(db, id);
    BlockExplained(r.card, r.key, r.tags, reason, x.now);
    SaveOneTraced(db, SetBlocked(x, db, id, reason, version).value, BlockedRow(r.card, reason, x.now), x.now,
                  if reason.Some? then BlockRaised(reason.value) else BlockCleared);
  }

  lemma NoteTraced(x: Ctx, db: Db, id: CardId)
    requires WellFormed(db) && AllTraced(db) && Note(x, db, id).Success?
    ensures AllTraced(Note(x, db, id).value)
  {
    SaveOneTraced(db, Note(x, db, id).value, db.cards[id], x.now, Noted);
  }

  /** Steps that touch only what no trail speaks of. */
  lemma SilentTraced(db: Db, db': Db)
    requires AllTraced(db) && db'.cards.Keys == db.cards.Keys
    requires db'.log == db.log && db'.tags == db.tags && db'.cardTags == db.cardTags
    requires forall l :: l in db.keyEver ==> l in db'.keyEver && db'.keyEver[l] == db.keyEver[l]
    requires forall c :: c in db.cards && db.cards[c].lane in db.lanes ==>
               && db'.cards[c].lane in db'.lanes && KeyOf(db', db'.cards[c]) == KeyOf(db, db.cards[c])
               && ViewOf(db'.cards[c], Done, {}) == ViewOf(db.cards[c], Done, {})
    ensures AllTraced(db')
  {
    forall c | c in db'.cards
      ensures Present(db', c) && Traced(RecordOf(db', c))
    {
      assert RecordOf(db', c) == RecordOf(db, c).(card := db'.cards[c]);
    }
  }

  lemma RebalanceTraced(x: Ctx, db: Db, lane: LaneId)
    requires WellFormed(db) && AllTraced(db)
    ensures AllTraced(Rebalance(x, db, lane).value)
  {
    OnlyPositionsMove(x, db, lane);
    SilentTraced(db, Rebalance(x, db, lane).value);
  }

  lemma OnlyPositionsMove(x: Ctx, db: Db, lane: LaneId)
    requires WellFormed(db)
    ensures var db' := Rebalance(x, db, lane).value;
            && db' == db.(cards := db'.cards) && db'.cards.Keys == db.cards.Keys
            && forall c :: c in db.cards ==> db'.cards[c] == db.cards[c].(position := db'.cards[c].position)
  {
    if Outgrown(x, db, lane) {
      var ids := ActiveList(db.cards, lane);
      var keys := x.keyGen.after(LastKey(db.cards, lane), |ids|);
      FreshBatch(x, db, lane);
      RekeyedKeeps(db.cards, lane, ids, keys);
      forall c | c in db.cards
        ensures Rekeyed(db.cards, ids, keys)[c] == db.cards[c].(position := Rekeyed(db.cards, ids, keys)[c].position)
      {
        if c in ids {
          var i :| 0 <= i < |ids| && ids[i] == c;
        }
      }
    }
  }

  lemma RemoveLaneTraced(x: Ctx, db: Db, board: BoardId, id: LaneId)
    requires AllTraced(db) && RemoveLane(x, db, board, id).Success?
    ensures AllTraced(RemoveLane(x, db, board, id).value)
  {
    NobodyLeft(db.cards, id);
    SilentTraced(db, RemoveLane(x, db, board, id).value);
  }

  lemma DiscardTraced(x: Ctx, db: Db, id: CardId, version: nat)
    requires AllTraced(db) && WellFormed(db) && Discard(x, db, id, version).Success?
    ensures AllTraced(Discard(x, db, id, version).value)
  {
    var db' := Discard(x, db, id, version).value;
    forall c | c in db'.cards
      ensures Present(db', c) && Traced(RecordOf(db', c))
    {
      assert RecordOf(db', c) == RecordOf(db, c);
    }
  }

  /** The nightly job reads its candidates from a done lane. */
  predicate FromDone(db: Db, c: Command) {
    c.DoArchiveOne? ==> c.lane in db.keyEver && db.keyEver[c.lane] == Done
  }

  predicate IsAdministrative(c: Command) {
    || c.DoCreateLane? || c.DoLimitLane? || c.DoRemoveLane? || c.DoReorderLanes?
    || c.DoOpenBoard? || c.DoHideBoard? || c.DoForgetLocations? || c.DoRebalance? || c.DoClaim?
  }

  lemma ClaimTraced(x: Ctx, db: Db)
    requires AllTraced(db)
    ensures AllTraced(ClaimOverdue(x, db).value)
  {
    SilentTraced(db, ClaimOverdue(x, db).value);
  }

  lemma ForgetTraced(db: Db, gone: set<LocationId>)
    requires AllTraced(db)
    ensures AllTraced(ForgetLocations(db, gone).value)
  {
    SilentTraced(db, ForgetLocations(db, gone).value);
  }

  lemma CreateLaneTraced(x: Ctx, db: Db, board: BoardId, id: LaneId, key: LaneKey, wip: Option<nat>)
    requires WellFormed(db) && AllTraced(db) && CreateLane(x, db, board, id, key, wip).Success?
    ensures AllTraced(CreateLane(x, db, board, id, key, wip).value)
  {
    CreateLaneAdds(x, db, board, id, key, wip);
    AddLaneTraced(db, id, Lane(board, key, LastLanePosition(db, board) + 1, wip));
  }

  lemma AddLaneTraced(db: Db, id: LaneId, lane: Lane)
    requires AllTraced(db) && id !in db.keyEver && id !in db.lanes
    ensures AllTraced(AddLane(db, id, lane))
  {
    SilentTraced(db, AddLane(db, id, lane));
  }

  lemma LimitLaneTraced(x: Ctx, db: Db, board: BoardId, id: LaneId, wip: Option<nat>)
    requires AllTraced(db) && LimitLane(x, db, board, id, wip).Success?
    ensures AllTraced(LimitLane(x, db, board, id, wip).value)
  {
    SilentTraced(db, LimitLane(x, db, board, id, wip).value);
  }

  lemma ReorderTraced(x: Ctx, db: Db, board: BoardId, order: seq<LaneId>)
    requires AllTraced(db) && ReorderLanes(x, db, board, order).Success?
    ensures AllTraced(ReorderLanes(x, db, board, order).value)
  {
    SilentTraced(db, ReorderLanes(x, db, board, order).value);
  }

  lemma OpenTraced(x: Ctx, db: Db, board: BoardId, ids: seq<LaneId>)
    requires WellFormed(db) && AllTraced(db) && OpenBoard(x, db, board, ids).Success?
    ensures AllTraced(OpenBoard(x, db, board, ids).value)
  {
    AddBoardTraced(db, board, DefaultLanes(board, ids));
  }

  lemma AddBoardTraced(db: Db, board: BoardId, lanes: map<LaneId, Lane>)
    requires AllTraced(db) && KeysRecorded(db.lanes, db.keyEver) && forall l :: l in lanes ==> l !in db.keyEver
    ensures AllTraced(AddBoard(db, board, lanes))
  {
    SilentTraced(db, AddBoard(db, board, lanes));
  }

  lemma HideTraced(x: Ctx, db: Db, board: BoardId)
    requires AllTraced(db) && HideBoard(x, db, board).Success?
    ensures AllTraced(HideBoard(x, db, board).value)
  {
    SilentTraced(db, HideBoard(x, db, board).value);
  }

  lemma AdministrativeTraced(x: Ctx, db: Db, c: Command)
    requires WellFormed(db) && AllTraced(db) && IsAdministrative(c) && Execute(x, db, c).Success?
    ensures AllTraced(Execute(x, db, c).value)
  {
    match c
    case DoClaim => ClaimTraced(x, db);
    case DoCreateLane(board, lane, key, wip) => CreateLaneTraced(x, db, board, lane, key, wip);
    case DoLimitLane(board, lane, wip) => LimitLaneTraced(x, db, board, lane, wip);
    case DoRemoveLane(board, lane) => RemoveLaneTraced(x, db, board, lane);
    case DoReorderLanes(board, order) => ReorderTraced(x, db, board, order);
    case DoOpenBoard(board, ids) => OpenTraced(x, db, board, ids);
    case DoHideBoard(board) => HideTraced(x, db, board);
    case DoForgetLocations(gone) => ForgetTraced(db, gone);
    case DoRebalance(lane) => RebalanceTraced(x, db, lane);
  }

  lemma CardStepTraced(x: Ctx, db: Db, c: Command)
    requires WellFormed(db) && AllTraced(db) && FromDone(db, c) && !IsAdministrative(c) && Execute(x, db, c).Success?
    ensures AllTraced(Execute(x, db, c).value)
  {
    match c
    case DoCreate(board, input) => CreateTraced(x, db, board, input);
    case DoUpdate(id, input) => UpdateTraced(x, db, id, input);
    case DoMove(id, input) => MoveTraced(x, db, id, input);
    case DoCancel(id, resolution, version) => CancelTraced(x, db, id, resolution, version);
    case DoReopen(id, version) => ReopenTraced(x, db, id, version);
    case DoArchive(id, version) => ArchiveTraced(x, db, id, version);
    case DoArchiveOne(id, lane, cutoff) => ArchiveOneTraced(x.now, db, id, lane, cutoff);
    case DoSetBlocked(id, reason, version) => SetBlockedTraced(x, db, id, reason, version);
    case DoNote(id) => NoteTraced(x, db, id);
    case DoDiscard(id, version) => DiscardTraced(x, db, id, version);
  }

  /** Whatever the command, trails that explained the cards before it explain them after it. */
  lemma StepTraced(x: Ctx, db: Db, c: Command)
    requires WellFormed(db) && AllTraced(db) && FromDone(db, c)
    ensures AllTraced(Step(x, db, c))
  {
    if Execute(x, db, c).Success? {
      if IsAdministrative(c) {
        AdministrativeTraced(x, db, c);
      } else {
        CardStepTraced(x, db, c);
      }
    }
  }
}
