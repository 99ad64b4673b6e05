/**
 * What a command may do to a card: to the one card it is about, and to all the others. The statements about runs
 * rest on this, not on the commands themselves.
 */
module Effects {
  import opened Wrappers
  import opened Keys
  import opened Domain
  import opened Audit
  import opened Store
  import opened Commands
  import opened Integrity
  import opened Trails
  import opened Shapes

  function Target(c: Command): Option<CardId> {
    if c.DoUpdate? || c.DoMove? || c.DoCancel? || c.DoReopen? || c.DoArchive? || c.DoArchiveOne? || c.DoSetBlocked?
       || c.DoNote? || c.DoDiscard?
    then Some(c.id) else None
  }

  function Expected(c: Command): Option<nat> {
    match c
    case DoUpdate(_, input) => Some(input.expectedVersion)
    case DoMove(_, input) => Some(input.expectedVersion)
    case DoCancel(_, _, version) => Some(version)
    case DoReopen(_, version) => Some(version)
    case DoArchive(_, version) => Some(version)
    case DoSetBlocked(_, _, version) => Some(version)
    case DoDiscard(_, version) => Some(version)
    case _ => None
  }

  /** One card's row, lane key and trail before and after a step that keeps the card. */
  predicate Continues(a: Card, k: LaneKey, l: seq<Event>, b: Card, k': LaneKey, l': seq<Event>, reopened: bool) {
    && b.board == a.board
    && a.version <= b.version
    // Only a cancellation, which takes the card into done, changes what a reopen would restore.
    && (LastCancel(l') == LastCancel(l) || (k != Done && k' == Done))
    // Within done only a reopen changes what the card would be restored from.
    && (k == Done && k' == Done && !reopened ==> StillUndoable(a, b))
    // A claimed alert stays claimed for as long as the waiting episode lasts.
    && (k == WaitingPartsVendor && k' == WaitingPartsVendor && a.expectedResumeAt == b.expectedResumeAt ==>
          (a.resumeAlertedAt.Some? ==> b.resumeAlertedAt.Some?))
  }

  predicate StillUndoable(a: Card, b: Card) {
    b.resolution == a.resolution && b.workStartedAt == a.workStartedAt && SameWaiting(a, b)
  }

  ghost predicate Held(db: Db, c: CardId) {
    c in db.cards && c in db.log && db.cards[c].lane in db.lanes
  }

  ghost predicate Survives(db: Db, db': Db, c: CardId, reopened: bool) {
    && Held(db, c) && Held(db', c)
    && Continues(db.cards[c], KeyOf(db, db.cards[c]), db.log[c], db'.cards[c], KeyOf(db', db'.cards[c]), db'.log[c],
                 reopened)
  }

  /** Nothing but the row and the trail of one card changes; the trail only grows. */
  ghost predicate Rewrites(db: Db, db': Db, id: CardId, now: Time) {
    && Held(db, id) && Held(db', id) && db'.lanes == db.lanes && db'.keyEver == db.keyEver && db'.live == db.live
    && db'.cards == db.cards[id := db'.cards[id]]
    && Appends(db, db', id, now)
  }

  ghost predicate Appends(db: Db, db': Db, id: CardId, now: Time) {
    id in db.log && exists bodies ::
      && db'.log == db.log[id := db.log[id] + Stamp(db.nextEvent, now, bodies)]
      && db'.nextEvent == db.nextEvent + |bodies|
  }

  /** A versioned write found the version it states and left the next one. */
  predicate Counted(a: Card, b: Card, expected: Option<nat>) {
    expected.Some? && b != a ==> a.version == expected.value && b.version == a.version + 1
  }

  ghost predicate Acts(db: Db, db': Db, id: CardId, now: Time, expected: Option<nat>, reopened: bool) {
    Rewrites(db, db', id, now) && Survives(db, db', id, reopened) && Counted(db.cards[id], db'.cards[id], expected)
  }

  lemma SaveActs(db: Db, db': Db, card: Card, now: Time, bodies: seq<Body>, expected: Option<nat>, reopened: bool)
    requires Held(db, card.id) && card.lane in db.lanes
    requires Save(db, card, now, bodies) == Success(db')
    requires var was := db.cards[card.id];
             && Continues(was, KeyOf(db, was), db.log[card.id], card, KeyOf(db, card), db'.log[card.id], reopened)
             && Counted(was, card, expected)
    ensures Acts(db, db', card.id, now, expected, reopened)
  {
  }

  lemma MoveActs(x: Ctx, db: Db, id: CardId, input: MoveInput)
    requires WellFormed(db) && Move(x, db, id, input).Success?
    ensures Acts(db, Move(x, db, id, input).value, id, x.now, Some(input.expectedVersion), false)
  {
    var db' := Move(x, db, id, input).value;
    OneMoreEvent(db.log[id], db.nextEvent, x.now, MovedBody(db, id, input));
    MovedContinues(x, db, id, input);
    SaveActs(db, db', MovedRow(x, db, id, input), x.now, [MovedBody(db, id, input)], Some(input.expectedVersion), false);
  }

  lemma MovedContinues(x: Ctx, db: Db, id: CardId, input: MoveInput)
    requires WellFormed(db) && RefuseMove(x, db, id, input).None?
    ensures var a, b := db.cards[id], MovedRow(x, db, id, input);
            && b.id == id && b.lane in db.lanes && Held(db, id)
            && Continues(a, KeyOf(db, a), db.log[id], b, KeyOf(db, b), db.log[id], false)
            && Counted(a, b, Some(input.expectedVersion))
            && !MovedBody(db, id, input).CardCancelled?
  {
    var a, lane := db.cards[id], LaneByKey(db, db.cards[id].board, input.to).value;
    RelocatedContinues(a, KeyOf(db, a), db.log[id], lane, input, MovedRow(x, db, id, input).position, x.now);
  }

  lemma RelocatedContinues(a: Card, from: LaneKey, log: seq<Event>, lane: LaneId, input: MoveInput, position: Key, now: Time)
    requires lane == a.lane <==> from == input.to
    ensures var b := Relocated(a, from, lane, input.to, position, input.waitingReason, input.expectedResumeAt, now);
            Continues(a, from, log, b, input.to, log, false)
  {
  }

  lemma CancelActs(x: Ctx, db: Db, id: CardId, resolution: Resolution, version: nat)
    requires WellFormed(db) && Cancel(x, db, id, resolution, version).Success?
    ensures Acts(db, Cancel(x, db, id, resolution, version).value, id, x.now, Some(version), false)
  {
    var card := db.cards[id];
    SaveActs(db, Cancel(x, db, id, resolution, version).value,
             CancelledRow(x, db, id, resolution, LaneByKey(db, card.board, Done).value), x.now,
             [CardCancelled(CancellationOf(db, card, resolution))], Some(version), false);
  }

  lemma ReopenActs(x: Ctx, db: Db, id: CardId, version: nat)
    requires WellFormed(db) && Reopen(x, db, id, version).Success?
    ensures Acts(db, Reopen(x, db, id, version).value, id, x.now, Some(version), true)
  {
    var body := Reopened(db.lanes[ReopenTarget(db, db.cards[id]).value].key);
    OneMoreEvent(db.log[id], db.nextEvent, x.now, body);
    SaveActs(db, Reopen(x, db, id, version).value, ReopenedRow(x, db, id), x.now, [body], Some(version), true);
  }

  lemma ArchiveActs(x: Ctx, db: Db, id: CardId, version: nat)
    requires WellFormed(db) && Archive(x, db, id, version).Success?
    ensures Acts(db, Archive(x, db, id, version).value, id, x.now, Some(version), false)
  {
    ArchivedActs(db, Archive(x, db, id, version).value, id, x.now, Some(version));
  }

  /** A row that stays in its lane with all that a reopen or an alert looks at, and an event that is no cancellation. */
  lemma InPlaceActs(db: Db, db': Db, row: Card, now: Time, body: Body, expected: Option<nat>)
    requires Held(db, row.id) && !body.CardCancelled? && Counted(db.cards[row.id], row, expected)
    requires var was := db.cards[row.id];
             row.lane == was.lane && row.board == was.board && was.version <= row.version && StillUndoable(was, row)
    requires Save(db, row, now, [body]) == Success(db')
    ensures Acts(db, db', row.id, now, expected, false)
  {
    OneMoreEvent(db.log[row.id], db.nextEvent, now, body);
    SaveActs(db, db', row, now, [body], expected, false);
  }

  lemma ArchivedActs(db: Db, db': Db, id: CardId, now: Time, expected: Option<nat>)
    requires Held(db, id) && db.cards[id].id == id && Counted(db.cards[id], ArchivedRow(db.cards[id], now), expected)
    requires Save(db, ArchivedRow(db.cards[id], now), now, [CardArchived]) == Success(db')
    ensures Acts(db, db', id, now, expected, false)
  {
    InPlaceActs(db, db', ArchivedRow(db.cards[id], now), now, CardArchived, expected);
  }

  lemma ArchiveOneActs(now: Time, db: Db, id: CardId, lane: LaneId, cutoff: Time)
    requires WellFormed(db) && ArchiveOne(now, db, id, lane, cutoff).Success?
    ensures var db' := ArchiveOne(now, db, id, lane, cutoff).value; db' == db || Acts(db, db', id, now, None, false)
  {
    var db' := ArchiveOne(now, db, id, lane, cutoff).value;
    if db' != db {
      ArchivedActs(db, db', id, now, None);
    }
  }

  lemma SetBlockedActs(x: Ctx, db: Db, id: CardId, reason: Option<string>, version: nat)
    requires WellFormed(db) && SetBlocked(x, db, id, reason, version).Success?
    ensures Acts(db, SetBlocked(x, db, id, reason, version).value, id, x.now, Some(version), false)
  {
    var body := if reason.Some? then BlockRaised(reason.value) else BlockCleared;
    InPlaceActs(db, SetBlocked(x, db, id, reason, version).value, BlockedRow(db.cards[id], reason, x.now), x.now, body,
                Some(version));
  }

  lemma NoteActs(x: Ctx, db: Db, id: CardId)
    requires WellFormed(db) && Note(x, db, id).Success?
    ensures Acts(db, Note(x, db, id).value, id, x.now, None, false)
  {
    InPlaceActs(db, Note(x, db, id).value, db.cards[id], x.now, Noted, None);
  }

  lemma UpdateActs(x: Ctx, db: Db, id: CardId, input: UpdateInput)
    requires WellFormed(db) && Update(x, db, id, input).Success?
    ensures Acts(db, Update(x, db, id, input).value, id, x.now, Some(input.expectedVersion), false)
  {
    var (tags, folded) := WantedTags(db, id, input.tags);
    var draft := EditAll(db, id, input);
    EditedContinues(x, db, id, input);
    DraftActs(db, Update(x, db, id, input).value, draft, tags, folded, x.now, input.expectedVersion);
  }

  lemma DraftActs(db: Db, db': Db, draft: Draft, tags: map<string, string>, folded: set<string>, now: Time, version: nat)
    requires Held(db, draft.card.id) && db.cards[draft.card.id].version == version
    requires var was := db.cards[draft.card.id];
             && OnlyEdited(was, draft.card) && OnlyFieldChanges(draft.bodies)
             && (KeyOf(db, was) != WaitingPartsVendor ==> SameWaiting(was, draft.card))
             && (draft.card.expectedResumeAt == was.expectedResumeAt ==> draft.card.resumeAlertedAt == was.resumeAlertedAt)
    requires if draft.bodies == [] then db' == db.(tags := tags)
             else Save(db.(tags := tags, cardTags := db.cardTags[draft.card.id := folded]),
                       Edited(draft.card, now), now, draft.bodies) == Success(db')
    ensures Acts(db, db', draft.card.id, now, Some(version), false)
  {
    var id := draft.card.id;
    EditsHideNoCancel(db.log[id], db.nextEvent, now, draft.bodies);
    if draft.bodies == [] {
      assert db.log[id] + Stamp(db.nextEvent, now, []) == db.log[id];
    } else {
      var retagged := db.(tags := tags, cardTags := db.cardTags[id := folded]);
      SaveActs(retagged, db', Edited(draft.card, now), now, draft.bodies, Some(version), false);
    }
  }

  lemma EditedContinues(x: Ctx, db: Db, id: CardId, input: UpdateInput)
    requires WellFormed(db) && RefuseUpdate(x, db, id, input).None?
    ensures var draft, key := EditAll(db, id, input), KeyOf(db, db.cards[id]);
            && (key != WaitingPartsVendor ==> SameWaiting(db.cards[id], draft.card))
            && (draft.card.expectedResumeAt == db.cards[id].expectedResumeAt ==>
                  draft.card.resumeAlertedAt == db.cards[id].resumeAlertedAt)
  {
  }

  // ---- Administration ----

  ghost predicate KeyEverGrows(db: Db, db': Db) {
    forall l :: l in db.keyEver ==> l in db'.keyEver && db'.keyEver[l] == db.keyEver[l]
  }

  /** No row but for its position key, location and alert, no trail, and no lane key that a card depends on. */
  ghost predicate Quiet(db: Db, db': Db) {
    && db'.cards.Keys == db.cards.Keys && db'.log == db.log && db'.nextEvent == db.nextEvent
    && KeyEverGrows(db, db')
    && forall c :: Held(db, c) ==>
         && Held(db', c) && KeyOf(db', db'.cards[c]) == KeyOf(db, db.cards[c])
         && QuietRow(db.cards[c], db'.cards[c], KeyOf(db, db.cards[c]))
  }

  predicate QuietRow(a: Card, b: Card, key: LaneKey) {
    && b == a.(position := b.position, location := b.location, resumeAlertedAt := b.resumeAlertedAt)
    && (b.location == a.location || b.location.None?)
    && (b.resumeAlertedAt == a.resumeAlertedAt || (key == WaitingPartsVendor && b.resumeAlertedAt.Some?))
  }

  lemma QuietSurvives(db: Db, db': Db, c: CardId)
    requires Quiet(db, db') && Held(db, c)
    ensures Survives(db, db', c, false) && db'.cards[c].version == db.cards[c].version
  {
  }

  lemma ClaimQuiet(x: Ctx, db: Db)
    ensures Quiet(db, ClaimOverdue(x, db).value)
  {
  }

  lemma ForgetQuiet(db: Db, gone: set<LocationId>)
    ensures Quiet(db, ForgetLocations(db, gone).value)
  {
  }

  lemma CreateLaneQuiet(x: Ctx, db: Db, board: BoardId, id: LaneId, key: LaneKey, wip: Option<nat>)
    requires WellFormed(db) && CreateLane(x, db, board, id, key, wip).Success?
    ensures Quiet(db, CreateLane(x, db, board, id, key, wip).value)
  {
    CreateLaneAdds(x, db, board, id, key, wip);
    AddLaneQuiet(db, id, Lane(board, key, LastLanePosition(db, board) + 1, wip));
  }

  lemma AddLaneQuiet(db: Db, id: LaneId, lane: Lane)
    requires id !in db.lanes && id !in db.keyEver
    ensures Quiet(db, AddLane(db, id, lane))
  {
  }

  lemma LimitLaneQuiet(x: Ctx, db: Db, board: BoardId, id: LaneId, wip: Option<nat>)
    requires LimitLane(x, db, board, id, wip).Success?
    ensures Quiet(db, LimitLane(x, db, board, id, wip).value)
  {
  }

  lemma RemoveLaneQuiet(x: Ctx, db: Db, board: BoardId, id: LaneId)
    requires RemoveLane(x, db, board, id).Success?
    ensures Quiet(db, RemoveLane(x, db, board, id).value)
  {
    NobodyLeft(db.cards, id);
  }

  lemma ReorderQuiet(x: Ctx, db: Db, board: BoardId, order: seq<LaneId>)
    requires ReorderLanes(x, db, board, order).Success?
    ensures Quiet(db, ReorderLanes(x, db, board, order).value)
  {
  }

  lemma OpenQuiet(x: Ctx, db: Db, board: BoardId, ids: seq<LaneId>)
    requires WellFormed(db) && OpenBoard(x, db, board, ids).Success?
    ensures Quiet(db, OpenBoard(x, db, board, ids).value)
  {
    AddBoardQuiet(db, board, DefaultLanes(board, ids));
  }

  lemma AddBoardQuiet(db: Db, board: BoardId, lanes: map<LaneId, Lane>)
    requires KeysRecorded(db.lanes, db.keyEver) && forall l :: l in lanes ==> l !in db.keyEver
    ensures Quiet(db, AddBoard(db, board, lanes))
  {
  }

  lemma HideQuiet(x: Ctx, db: Db, board: BoardId)
    requires HideBoard(x, db, board).Success?
    ensures Quiet(db, HideBoard(x, db, board).value)
  {
  }

  lemma RebalanceQuiet(x: Ctx, db: Db, lane: LaneId)
    requires WellFormed(db)
    ensures Quiet(db, Rebalance(x, db, lane).value)
  {
    OnlyPositionsMove(x, db, lane);
  }

  lemma AdministrationQuiet(x: Ctx, db: Db, c: Command)
    requires WellFormed(db) && IsAdministrative(c) && Execute(x, db, c).Success?
    ensures Quiet(db, Execute(x, db, c).value)
  {
    match c
    case DoClaim => ClaimQuiet(x, db);
    case DoCreateLane(board, lane, key, wip) => CreateLaneQuiet(x, db, board, lane, key, wip);
    case DoLimitLane(board, lane, wip) => LimitLaneQuiet(x, db, board, lane, wip);
    case DoRemoveLane(board, lane) => RemoveLaneQuiet(x, db, board, lane);
    case DoReorderLanes(board, order) => ReorderQuiet(x, db, board, order);
    case DoOpenBoard(board, ids) => OpenQuiet(x, db, board, ids);
    case DoHideBoard(board) => HideQuiet(x, db, board);
    case DoForgetLocations(gone) => ForgetQuiet(db, gone);
    case DoRebalance(lane) => RebalanceQuiet(x, db, lane);
  }

  // ---- Creation and discard ----

  ghost predicate Adds(db: Db, db': Db, now: Time) {
    var id := NextCardId(db);
    && id !in db.cards && id in db'.cards && db'.lanes == db.lanes && db'.keyEver == db.keyEver
    && db'.cards == db.cards[id := db'.cards[id]]
    && (exists b: Body :: b.Created? && db'.log == db.log[id := [Event(db.nextEvent, now, b)]])
    && db'.nextEvent == db.nextEvent + 1
  }

  lemma CreateAdds(x: Ctx, db: Db, board: BoardId, input: CreateInput)
    requires WellFormed(db) && Create(x, db, board, input).Success?
    ensures Adds(db, Create(x, db, board, input).value, x.now)
  {
    TagsResolved(db.tags, input.tags);
    var (tags, folded) := ResolveTags(db.tags, input.tags);
    var card := NewCard(x, db, board, FirstLane(db, board).value, input);
    assert Created(card, TagNames(tags, folded)).Created?;
  }

  ghost predicate Removes(db: Db, db': Db, id: CardId) {
    db' == db.(cards := db.cards - {id}, log := db.log - {id}, cardTags := db.cardTags - {id})
  }

  lemma DiscardRemoves(x: Ctx, db: Db, id: CardId, version: nat)
    requires WellFormed(db) && Discard(x, db, id, version).Success?
    ensures Removes(db, Discard(x, db, id, version).value, id)
  {
  }

  // ---- Any command ----

  ghost predicate Effect(x: Ctx, db: Db, db': Db, c: Command) {
    if c.DoCreate? then Adds(db, db', x.now)
    else if c.DoDiscard? then Removes(db, db', c.id)
    else if Target(c).Some? then db' == db || Acts(db, db', Target(c).value, x.now, Expected(c), c.DoReopen?)
    else Quiet(db, db')
  }

  lemma TargetActs(x: Ctx, db: Db, c: Command)
    requires WellFormed(db) && Target(c).Some? && !c.DoDiscard? && Execute(x, db, c).Success?
    ensures Execute(x, db, c).value == db || Acts(db, Execute(x, db, c).value, Target(c).value, x.now, Expected(c), c.DoReopen?)
  {
    match c
    case DoUpdate(id, input) => UpdateActs(x, db, id, input);
    case DoMove(id, input) => MoveActs(x, db, id, input);
    case DoCancel(id, resolution, version) => CancelActs(x, db, id, resolution, version);
    case DoReopen(id, version) => ReopenActs(x, db, id, version);
    case DoArchive(id, version) => ArchiveActs(x, db, id, version);
    case DoArchiveOne(id, lane, cutoff) => ArchiveOneActs(x.now, db, id, lane, cutoff);
    case DoSetBlocked(id, reason, version) => SetBlockedActs(x, db, id, reason, version);
    case DoNote(id) => NoteActs(x, db, id);
  }

  lemma CommandEffect(x: Ctx, db: Db, c: Command)
    requires WellFormed(db) && Execute(x, db, c).Success?
    ensures Effect(x, db, Execute(x, db, c).value, c)
  {
    if IsAdministrative(c) {
      AdministrationQuiet(x, db, c);
    } else if c.DoCreate? {
      CreateAdds(x, db, c.board, c.creation);
    } else if c.DoDiscard? {
      DiscardRemoves(x, db, c.id, c.expectedVersion);
    } else {
      TargetActs(x, db, c);
    }
  }

  /** A card that is there before and after a step survives it in the sense of `Continues`. */
  lemma StepSurvives(x: Ctx, db: Db, cmd: Command, c: CardId)
    requires WellFormed(db) && c in db.cards && c in Step(x, db, cmd).cards
    ensures Survives(db, Step(x, db, cmd), c, cmd.DoReopen? && cmd.id == c)
    ensures Target(cmd) == Some(c) ==> Counted(db.cards[c], Step(x, db, cmd).cards[c], Expected(cmd))
  {
    if Execute(x, db, cmd).Success? {
      CommandEffect(x, db, cmd);
      EffectSurvives(x, db, Execute(x, db, cmd).value, cmd, c);
    } else {
      NothingHappened(db, c);
    }
  }

  lemma NothingHappened(db: Db, c: CardId)
    requires Held(db, c)
    ensures forall reopened :: Survives(db, db, c, reopened)
  {
  }

  lemma EffectSurvives(x: Ctx, db: Db, db': Db, cmd: Command, c: CardId)
    requires Effect(x, db, db', cmd) && Held(db, c) && c in db'.cards
    ensures Survives(db, db', c, cmd.DoReopen? && cmd.id == c)
    ensures Target(cmd) == Some(c) ==> Counted(db.cards[c], db'.cards[c], Expected(cmd))
  {
    if Target(cmd).Some? && !cmd.DoDiscard? {
      if db' != db {
        OthersSurvive(db, db', Target(cmd).value, x.now, Expected(cmd), cmd.DoReopen?, c);
      }
    } else if !cmd.DoCreate? && !cmd.DoDiscard? {
      QuietSurvives(db, db', c);
    }
  }

  lemma OthersSurvive(db: Db, db': Db, id: CardId, now: Time, expected: Option<nat>, reopened: bool, c: CardId)
    requires Acts(db, db', id, now, expected, reopened) && Held(db, c)
    ensures Survives(db, db', c, reopened && c == id)
  {
  }
}
