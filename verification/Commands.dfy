/**
 * What every command does to the tables: one transaction each, as a function of the tables it starts from.
 * A failure leaves the tables as they were, because its transaction is rolled back.
 */
module Commands {
  import opened Wrappers
  import opened Keys
  import opened Domain
  import opened Store
  import opened LaneOrder
  import Finite

  /** Everything a command learns from outside the tables; `policy` is the decision for the acting user. */
  datatype Ctx = Ctx(
    now: Time,
    today: Day,
    keyGen: KeyGen,
    canAccess: BoardId -> bool,
    policy: (BoardId, Action) -> Decision,
    reasonActive: (BoardId, string) -> bool,
    isUser: UserId -> bool,
    isAssignable: (UserId, BoardId) -> bool,
    isLocation: LocationId -> bool)

  // ---- Guards shared by the commands ----

  predicate Visible(x: Ctx, db: Db, board: BoardId) {
    board in db.live && x.canAccess(board)
  }

  predicate Reachable(x: Ctx, db: Db, id: CardId) {
    id in db.cards && Visible(x, db, db.cards[id].board)
  }

  function Refusal(decision: Decision): Option<Error> {
    match decision
    case Allowed => None
    case Denied => Some(PolicyDenied)
    case Illegal => Some(IllegalTransition)
  }

  function KeyOf(db: Db, card: Card): LaneKey
    requires card.lane in db.lanes
  {
    db.lanes[card.lane].key
  }

  // ---- Creation ----

  datatype CreateInput = CreateInput(
    title: string, description: string, priority: Priority, estimate: Option<nat>,
    reporter: UserId, assignee: Option<UserId>, location: Option<LocationId>, tags: seq<string>)

  /** The tag rows and the folded names that a list of tag names stands for. */
  function ResolveTags(tags: map<string, string>, names: seq<string>): (map<string, string>, set<string>) {
    if names == [] then (tags, {})
    else
      var (known, resolved) := ResolveTags(tags, names[..|names| - 1]);
      var name := names[|names| - 1];
      (if Fold(name) in known then known else known[Fold(name) := name], resolved + {Fold(name)})
  }

  function NewCard(x: Ctx, db: Db, board: BoardId, entry: LaneId, input: CreateInput): Card {
    Card(NextCardId(db), board, entry,
         x.keyGen.between(None, FirstKey(db.cards, entry)),
         input.title, input.description, input.priority, input.estimate,
         input.reporter, input.assignee, input.location,
         None, false, None, None, None, None, None, None,
         1, x.now, x.now, None)
  }

  function RefuseCreate(x: Ctx, db: Db, board: BoardId, input: CreateInput): Option<Error>
    requires WellFormed(db)
  {
    if !Visible(x, db, board) then Some(NotFound)
    else if x.policy(board, ToCreate) != Allowed then Refusal(x.policy(board, ToCreate))
    else if !x.isUser(input.reporter) then Some(NotFound)
    else if input.assignee.Some? && !x.isAssignable(input.assignee.value, board) then Some(NotFound)
    else if input.location.Some? && !x.isLocation(input.location.value) then Some(NotFound)
    else if FirstLane(db, board).None? then Some(NotFound)
    else None
  }

  /** Inserts a new row with its tags and its creation event. */
  function Insert(db: Db, card: Card, now: Time, tags: map<string, string>, folded: set<string>): Outcome<Db>
    requires folded <= tags.Keys
  {
    if Clashes(db.cards, card) then Failure(DuplicatePosition)
    else Success(db.(cards := db.cards[card.id := card],
                     log := db.log[card.id := [Event(db.nextEvent, now, Created(card, TagNames(tags, folded)))]],
                     tags := tags,
                     cardTags := db.cardTags[card.id := folded],
                     nextEvent := db.nextEvent + 1))
  }

  function Create(x: Ctx, db: Db, board: BoardId, input: CreateInput): Outcome<Db>
    requires WellFormed(db)
  {
    var refusal := RefuseCreate(x, db, board, input);
    if refusal.Some? then Failure(refusal.value)
    else
      TagsResolved(db.tags, input.tags);
      var (tags, folded) := ResolveTags(db.tags, input.tags);
      Insert(db, NewCard(x, db, board, FirstLane(db, board).value, input), x.now, tags, folded)
  }

  lemma TagsResolved(tags: map<string, string>, names: seq<string>)
    ensures var (known, resolved) := ResolveTags(tags, names);
            && resolved <= known.Keys
            && tags.Keys <= known.Keys
            && (forall f :: f in tags ==> known[f] == tags[f])
            && known.Keys == tags.Keys + resolved
            && (forall f :: f in known && f !in tags ==> Fold(known[f]) == f)
  {
  }

  // ---- Field edits ----

  datatype UpdateInput = UpdateInput(
    title: Option<string>, description: Option<string>, priority: Option<Priority>,
    estimate: Option<Option<nat>>, assignee: Option<Option<UserId>>, location: Option<Option<LocationId>>,
    tags: Option<seq<string>>, waitingReason: Option<string>, expectedResumeAt: Option<Day>,
    expectedVersion: nat)

  /** A card row under edit, with the events the edits call for. */
  datatype Draft = Draft(card: Card, bodies: seq<Body>)

  /** Edits touch the editable fields and nothing else of the row. */
  predicate OnlyEdited(a: Card, b: Card) {
    b == a.(title := b.title, description := b.description, priority := b.priority, estimate := b.estimate,
            assignee := b.assignee, location := b.location, waitingReason := b.waitingReason,
            expectedResumeAt := b.expectedResumeAt, resumeAlertedAt := b.resumeAlertedAt)
  }

  predicate SameWaiting(a: Card, b: Card) {
    && a.waitingReason == b.waitingReason
    && a.expectedResumeAt == b.expectedResumeAt
    && a.resumeAlertedAt == b.resumeAlertedAt
  }

  predicate OnlyFieldChanges(bodies: seq<Body>) {
    forall i :: 0 <= i < |bodies| ==> bodies[i].FieldChanged?
  }

  function EditTitle(d: Draft, to: Option<string>): (r: Draft)
    ensures OnlyEdited(d.card, r.card) && SameWaiting(d.card, r.card)
    ensures OnlyFieldChanges(d.bodies) ==> OnlyFieldChanges(r.bodies)
  {
    if to.Some? && to.value != d.card.title then
      Draft(d.card.(title := to.value), d.bodies + [FieldChanged(TitleChange(d.card.title, to.value))])
    else d
  }

  function EditDescription(d: Draft, to: Option<string>): (r: Draft)
    ensures OnlyEdited(d.card, r.card) && SameWaiting(d.card, r.card)
    ensures OnlyFieldChanges(d.bodies) ==> OnlyFieldChanges(r.bodies)
  {
    if to.Some? && to.value != d.card.description then
      Draft(d.card.(description := to.value),
            d.bodies + [FieldChanged(DescriptionChange(d.card.description, to.value))])
    else d
  }

  function EditPriority(d: Draft, to: Option<Priority>): (r: Draft)
    ensures OnlyEdited(d.card, r.card) && SameWaiting(d.card, r.card)
    ensures OnlyFieldChanges(d.bodies) ==> OnlyFieldChanges(r.bodies)
  {
    if to.Some? && to.value != d.card.priority then
      Draft(d.card.(priority := to.value), d.bodies + [FieldChanged(PriorityChange(d.card.priority, to.value))])
    else d
  }

  function EditEstimate(d: Draft, to: Option<Option<nat>>): (r: Draft)
    ensures OnlyEdited(d.card, r.card) && SameWaiting(d.card, r.card)
    ensures OnlyFieldChanges(d.bodies) ==> OnlyFieldChanges(r.bodies)
  {
    if to.Some? && to.value != d.card.estimate then
      Draft(d.card.(estimate := to.value), d.bodies + [FieldChanged(EstimateChange(d.card.estimate, to.value))])
    else d
  }

  function EditAssignee(d: Draft, to: Option<Option<UserId>>): (r: Draft)
    ensures OnlyEdited(d.card, r.card) && SameWaiting(d.card, r.card)
    ensures OnlyFieldChanges(d.bodies) ==> OnlyFieldChanges(r.bodies)
  {
    if to.Some? && to.value != d.card.assignee then
      Draft(d.card.(assignee := to.value), d.bodies + [FieldChanged(AssigneeChange(d.card.assignee, to.value))])
    else d
  }

  function EditLocation(d: Draft, to: Option<Option<LocationId>>): (r: Draft)
    ensures OnlyEdited(d.card, r.card) && SameWaiting(d.card, r.card)
    ensures OnlyFieldChanges(d.bodies) ==> OnlyFieldChanges(r.bodies)
  {
    if to.Some? && to.value != d.card.location then
      Draft(d.card.(location := to.value), d.bodies + [FieldChanged(LocationChange(d.card.location, to.value))])
    else d
  }

  /** The card row keeps no tags; only the event is added. */
  function EditTags(d: Draft, changed: bool, from: set<string>, to: set<string>): (r: Draft)
    ensures OnlyEdited(d.card, r.card) && SameWaiting(d.card, r.card)
    ensures OnlyFieldChanges(d.bodies) ==> OnlyFieldChanges(r.bodies)
  {
    if changed then Draft(d.card, d.bodies + [FieldChanged(TagsChange(from, to))]) else d
  }

  function EditReason(d: Draft, to: Option<string>): (r: Draft)
    ensures OnlyEdited(d.card, r.card)
    ensures OnlyFieldChanges(d.bodies) ==> OnlyFieldChanges(r.bodies)
  {
    if to.Some? && to != d.card.waitingReason then
      Draft(d.card.(waitingReason := to), d.bodies + [FieldChanged(ReasonChange(d.card.waitingReason, to))])
    else d
  }

  /** A new date also re-arms the overdue alert. */
  function EditResume(d: Draft, to: Option<Day>): (r: Draft)
    ensures OnlyEdited(d.card, r.card)
    ensures OnlyFieldChanges(d.bodies) ==> OnlyFieldChanges(r.bodies)
  {
    if to.Some? && to != d.card.expectedResumeAt then
      Draft(d.card.(expectedResumeAt := to, resumeAlertedAt := None),
            d.bodies + [FieldChanged(ResumeChange(d.card.expectedResumeAt, to))])
    else d
  }

  function EditFields(card: Card, input: UpdateInput): (r: Draft)
    ensures OnlyEdited(card, r.card) && SameWaiting(card, r.card) && OnlyFieldChanges(r.bodies)
  {
    EditLocation(EditAssignee(EditEstimate(EditPriority(EditDescription(EditTitle(
      Draft(card, []), input.title), input.description), input.priority), input.estimate), input.assignee), input.location)
  }

  function WantedTags(db: Db, id: CardId, tags: Option<seq<string>>): (r: (map<string, string>, set<string>))
    requires id in db.cardTags && db.cardTags[id] <= db.tags.Keys
    ensures r.1 <= r.0.Keys
  {
    if tags.Some? then
      TagsResolved(db.tags, tags.value);
      ResolveTags(db.tags, tags.value)
    else (db.tags, db.cardTags[id])
  }

  function EditAll(db: Db, id: CardId, input: UpdateInput): (r: Draft)
    requires WellFormed(db) && id in db.cards
    ensures OnlyEdited(db.cards[id], r.card) && OnlyFieldChanges(r.bodies)
  {
    var (tags, folded) := WantedTags(db, id, input.tags);
    var tagged := EditTags(EditFields(db.cards[id], input), folded != db.cardTags[id],
                           TagNames(db.tags, db.cardTags[id]), TagNames(tags, folded));
    EditResume(EditReason(tagged, input.waitingReason), input.expectedResumeAt)
  }

  predicate Changes<T(==)>(to: Option<T>, from: T) {
    to.Some? && to.value != from
  }

  function RefuseUpdate(x: Ctx, db: Db, id: CardId, input: UpdateInput): Option<Error>
    requires WellFormed(db)
  {
    if !Reachable(x, db, id) then Some(NotFound)
    else
      var card := db.cards[id];
      if card.archivedAt.Some? then Some(ReadOnlyArchived)
      else if x.policy(card.board, ToUpdate) != Allowed then Refusal(x.policy(card.board, ToUpdate))
      else if card.version != input.expectedVersion then Some(Conflicting(StaleVersion))
      else if Changes(input.assignee, card.assignee) && input.assignee.value.Some?
              && !x.isAssignable(input.assignee.value.value, card.board) then Some(NotFound)
      else if Changes(input.location, card.location) && input.location.value.Some?
              && !x.isLocation(input.location.value.value) then Some(NotFound)
      else if (input.waitingReason.Some? || input.expectedResumeAt.Some?) && KeyOf(db, card) != WaitingPartsVendor then
        Some(Conflicting(OnlyWhileWaiting))
      else if input.waitingReason.Some? && input.waitingReason != card.waitingReason
              && !x.reasonActive(card.board, input.waitingReason.value) then Some(Conflicting(ReasonUnavailable))
      else None
  }

  /** A no-change update writes nothing. */
  function Update(x: Ctx, db: Db, id: CardId, input: UpdateInput): Outcome<Db>
    requires WellFormed(db)
  {
    var refusal := RefuseUpdate(x, db, id, input);
    if refusal.Some? then Failure(refusal.value)
    else
      var (tags, folded) := WantedTags(db, id, input.tags);
      var draft := EditAll(db, id, input);
      if draft.bodies == [] then Success(db.(tags := tags))
      else Save(db.(tags := tags, cardTags := db.cardTags[id := folded]), Edited(draft.card, x.now), x.now, draft.bodies)
  }

  function Edited(card: Card, now: Time): Card {
    card.(version := card.version + 1, updatedAt := now)
  }

  // ---- Moves ----

  datatype MoveInput = MoveInput(
    to: LaneKey, prev: Option<CardId>, next: Option<CardId>,
    waitingReason: Option<string>, expectedResumeAt: Option<Day>, expectedVersion: nat)

  /** A neighbour named by the client must be another live card of the target lane. */
  predicate StaleNeighbor(db: Db, moving: CardId, lane: LaneId, neighbor: Option<CardId>) {
    && neighbor.Some?
    && (|| neighbor.value !in db.cards
        || neighbor.value == moving
        || db.cards[neighbor.value].lane != lane
        || db.cards[neighbor.value].archivedAt.Some?)
  }

  function NeighborKey(db: Db, neighbor: Option<CardId>): Option<Key> {
    if neighbor.Some? && neighbor.value in db.cards then Some(db.cards[neighbor.value].position) else None
  }

  function ActiveCount(db: Db, lane: LaneId): nat {
    |ActiveIn(db.cards, lane)|
  }

  /** More cards are live than the lane's limit allows. */
  predicate Breached(db: Db, lane: LaneId)
    requires lane in db.lanes
  {
    db.lanes[lane].wipLimit.Some? && ActiveCount(db, lane) > db.lanes[lane].wipLimit.value
  }

  /** The row after a move from a lane with key `from` into lane `lane` with key `to`. */
  function Relocated(card: Card, from: LaneKey, lane: LaneId, to: LaneKey, position: Key,
                     reason: Option<string>, resume: Option<Day>, now: Time): Card {
    var placed := card.(lane := lane, position := position, version := card.version + 1, updatedAt := now);
    if lane == card.lane then placed
    else
      placed.(
        waitingReason := if from == WaitingPartsVendor then None
                         else if to == WaitingPartsVendor then reason else card.waitingReason,
        expectedResumeAt := if from == WaitingPartsVendor then None
                            else if to == WaitingPartsVendor then resume else card.expectedResumeAt,
        resumeAlertedAt := if from == WaitingPartsVendor || to == WaitingPartsVendor then None else card.resumeAlertedAt,
        workStartedAt := if to == InProgress && card.workStartedAt.None? then Some(now) else card.workStartedAt,
        resolution := if from == Done then None else if to == Done then Some(Completed) else card.resolution)
  }

  function RefuseMove(x: Ctx, db: Db, id: CardId, input: MoveInput): Option<Error>
    requires WellFormed(db)
  {
    if !Reachable(x, db, id) then Some(NotFound)
    else if db.cards[id].archivedAt.Some? then Some(ReadOnlyArchived)
    else if LaneByKey(db, db.cards[id].board, input.to).None? then Some(NotFound)
    else
      var card := db.cards[id];
      var from := KeyOf(db, card);
      var lane := LaneByKey(db, card.board, input.to).value;
      var reorder := lane == card.lane;
      var action := if reorder then ToReorder(input.to) else ToMove(from, input.to);
      var entersWaiting := !reorder && input.to == WaitingPartsVendor;
      if x.policy(card.board, action) != Allowed then Refusal(x.policy(card.board, action))
      else if !reorder && from == Done && x.policy(card.board, ToReopen) != Allowed then
        Refusal(x.policy(card.board, ToReopen))
      else if card.version != input.expectedVersion then Some(Conflicting(StaleVersion))
      else if entersWaiting && (input.waitingReason.None? || input.expectedResumeAt.None?) then Some(InvalidInput)
      else if entersWaiting && !x.reasonActive(card.board, input.waitingReason.value) then
        Some(Conflicting(ReasonUnavailable))
      else if StaleNeighbor(db, id, lane, input.prev) || StaleNeighbor(db, id, lane, input.next) then
        Some(Conflicting(StaleNeighbors))
      else if !Gap(NeighborKey(db, input.prev), NeighborKey(db, input.next)) then Some(Conflicting(StaleNeighbors))
      else if !Gap(PositionBefore(db.cards, lane, NeighborKey(db, input.next), id), NeighborKey(db, input.next)) then
        Some(Conflicting(StaleNeighbors))
      else None
  }

  function MovedRow(x: Ctx, db: Db, id: CardId, input: MoveInput): Card
    requires WellFormed(db) && id in db.cards && LaneByKey(db, db.cards[id].board, input.to).Some?
  {
    var card := db.cards[id];
    var lane := LaneByKey(db, card.board, input.to).value;
    var next := NeighborKey(db, input.next);
    var position := x.keyGen.between(PositionBefore(db.cards, lane, next, id), next);
    Relocated(card, KeyOf(db, card), lane, input.to, position, input.waitingReason, input.expectedResumeAt, x.now)
  }

  function MovedBody(db: Db, id: CardId, input: MoveInput): Body
    requires WellFormed(db) && id in db.cards && LaneByKey(db, db.cards[id].board, input.to).Some?
  {
    var from := KeyOf(db, db.cards[id]);
    var lane := LaneByKey(db, db.cards[id].board, input.to).value;
    var limit := db.lanes[lane].wipLimit;
    if lane == db.cards[id].lane then Reordered(input.to, input.prev, input.next)
    else StatusChanged(from, input.to, limit.Some? && ActiveCount(db, lane) + 1 > limit.value, from == WaitingPartsVendor)
  }

  function Move(x: Ctx, db: Db, id: CardId, input: MoveInput): Outcome<Db>
    requires WellFormed(db)
  {
    var refusal := RefuseMove(x, db, id, input);
    if refusal.Some? then Failure(refusal.value)
    else Save(db, MovedRow(x, db, id, input), x.now, [MovedBody(db, id, input)])
  }

  // ---- Cancel and reopen ----

  function RefuseCancel(x: Ctx, db: Db, id: CardId, resolution: Resolution, expectedVersion: nat): Option<Error>
    requires WellFormed(db)
  {
    if resolution == Completed then Some(InvalidInput)
    else if !Reachable(x, db, id) then Some(NotFound)
    else
      var card := db.cards[id];
      if card.archivedAt.Some? then Some(ReadOnlyArchived)
      else if KeyOf(db, card) == Done then Some(Conflicting(AlreadyTerminal))
      else if x.policy(card.board, ToCancel) != Allowed then Refusal(x.policy(card.board, ToCancel))
      else if card.version != expectedVersion then Some(Conflicting(StaleVersion))
      else if LaneByKey(db, card.board, Done).None? then Some(Conflicting(NoDoneLane))
      else None
  }

  function CancelledRow(x: Ctx, db: Db, id: CardId, resolution: Resolution, done: LaneId): Card
    requires id in db.cards
  {
    db.cards[id].(
      lane := done,
      position := x.keyGen.between(LastKey(db.cards, done), None),
      resolution := Some(resolution),
      waitingReason := None, expectedResumeAt := None, resumeAlertedAt := None,
      version := db.cards[id].version + 1, updatedAt := x.now)
  }

  /** What the cancellation event records about the card before it. */
  function CancellationOf(db: Db, card: Card, resolution: Resolution): Cancellation
    requires card.lane in db.lanes
  {
    Cancellation(resolution, KeyOf(db, card),
                 if card.waitingReason.Some? then Some(Waiting(card.waitingReason.value, card.expectedResumeAt)) else None)
  }

  function Cancel(x: Ctx, db: Db, id: CardId, resolution: Resolution, expectedVersion: nat): Outcome<Db>
    requires WellFormed(db)
  {
    var refusal := RefuseCancel(x, db, id, resolution, expectedVersion);
    if refusal.Some? then Failure(refusal.value)
    else
      var card := db.cards[id];
      Save(db, CancelledRow(x, db, id, resolution, LaneByKey(db, card.board, Done).value), x.now,
           [CardCancelled(CancellationOf(db, card, resolution))])
  }

  /** The newest cancellation, when the card is cancelled and can be taken back to where it was. */
  function Restorable(db: Db, card: Card): Option<Cancellation>
    requires card.id in db.log
  {
    var record := if card.resolution.Some? && card.resolution != Some(Completed) then LastCancel(db.log[card.id]) else None;
    if record.Some? && !(record.value.priorLane == WaitingPartsVendor && record.value.waiting.None?) then record else None
  }

  function RestoredLane(db: Db, card: Card): (r: Option<LaneId>)
    requires WellFormed(db) && card.id in db.log
    ensures r.Some? ==> r.value in db.lanes && db.lanes[r.value].board == card.board
  {
    var record := Restorable(db, card);
    if record.Some? then LaneByKey(db, card.board, record.value.priorLane) else None
  }

  /** Where a reopened card goes: back, else to ready, else to the first column. */
  function ReopenTarget(db: Db, card: Card): (r: Option<LaneId>)
    requires WellFormed(db) && card.id in db.log
    ensures r.Some? ==> r.value in db.lanes && db.lanes[r.value].board == card.board
  {
    var restored := RestoredLane(db, card);
    if restored.Some? then restored
    else if LaneByKey(db, card.board, Ready).Some? then LaneByKey(db, card.board, Ready)
    else FirstLane(db, card.board)
  }

  function RefuseReopen(x: Ctx, db: Db, id: CardId, expectedVersion: nat): Option<Error>
    requires WellFormed(db)
  {
    if !Reachable(x, db, id) then Some(NotFound)
    else
      var card := db.cards[id];
      if KeyOf(db, card) != Done then Some(IllegalTransition)
      else if x.policy(card.board, ToReopen) != Allowed then Refusal(x.policy(card.board, ToReopen))
      else if card.version != expectedVersion then Some(Conflicting(StaleVersion))
      else if ReopenTarget(db, card).None? then Some(NotFound)
      else None
  }

  function ReopenedRow(x: Ctx, db: Db, id: CardId): Card
    requires WellFormed(db) && id in db.cards && ReopenTarget(db, db.cards[id]).Some?
  {
    var card := db.cards[id];
    var restored := RestoredLane(db, card);
    var record := Restorable(db, card);
    var target := ReopenTarget(db, card).value;
    var restoreWaiting := restored.Some? && db.lanes[target].key == WaitingPartsVendor;
    var waiting := if restoreWaiting && record.Some? then record.value.waiting else None;
    card.(
      lane := target,
      position := x.keyGen.between(LastKey(db.cards, target), None),
      resolution := None,
      archivedAt := None,
      workStartedAt := if restored.Some? then card.workStartedAt else None,
      waitingReason := if !restoreWaiting then card.waitingReason
                       else if waiting.Some? then Some(waiting.value.reason) else None,
      expectedResumeAt := if !restoreWaiting then card.expectedResumeAt
                          else if waiting.Some? then waiting.value.resumeAt else None,
      resumeAlertedAt := if restoreWaiting then None else card.resumeAlertedAt,
      version := card.version + 1, updatedAt := x.now)
  }

  function Reopen(x: Ctx, db: Db, id: CardId, expectedVersion: nat): Outcome<Db>
    requires WellFormed(db)
  {
    var refusal := RefuseReopen(x, db, id, expectedVersion);
    if refusal.Some? then Failure(refusal.value)
    else Save(db, ReopenedRow(x, db, id), x.now, [Reopened(db.lanes[ReopenTarget(db, db.cards[id]).value].key)])
  }

  // ---- Archival ----

  function ArchivedRow(card: Card, now: Time): Card {
    card.(archivedAt := Some(now), version := card.version + 1, updatedAt := now)
  }

  function RefuseArchive(x: Ctx, db: Db, id: CardId, expectedVersion: nat): Option<Error>
    requires WellFormed(db)
  {
    if !Reachable(x, db, id) then Some(NotFound)
    else
      var card := db.cards[id];
      if card.archivedAt.Some? then Some(ReadOnlyArchived)
      else if KeyOf(db, card) != Done then Some(Conflicting(NotInDone))
      else if x.policy(card.board, ToArchive) != Allowed then Refusal(x.policy(card.board, ToArchive))
      else if card.version != expectedVersion then Some(Conflicting(StaleVersion))
      else None
  }

  function Archive(x: Ctx, db: Db, id: CardId, expectedVersion: nat): Outcome<Db>
    requires WellFormed(db)
  {
    var refusal := RefuseArchive(x, db, id, expectedVersion);
    if refusal.Some? then Failure(refusal.value)
    else Save(db, ArchivedRow(db.cards[id], x.now), x.now, [CardArchived])
  }

  /** When the card entered done, from the newest arrival event, or the row's last update without one. */
  function EnteredDoneAt(log: seq<Event>, updatedAt: Time): Time {
    var newest := Latest(log, IS_ARRIVAL);
    if newest.Some? && newest.value.body.CardCancelled? then newest.value.at
    else if newest.Some? && newest.value.body.StatusChanged? && newest.value.body.toLane == Done then newest.value.at
    else updatedAt
  }

  /** One transaction of the nightly archival: a candidate read earlier, re-checked now. */
  function ArchiveOne(now: Time, db: Db, id: CardId, lane: LaneId, cutoff: Time): Outcome<Db>
    requires WellFormed(db)
  {
    if id !in db.cards || db.cards[id].archivedAt.Some? || db.cards[id].lane != lane then Success(db)
    else if db.cards[id].board !in db.live then Success(db)
    else if EnteredDoneAt(db.log[id], db.cards[id].updatedAt) > cutoff then Success(db)
    else Save(db, ArchivedRow(db.cards[id], now), now, [CardArchived])
  }

  // ---- Overdue waiting alerts ----

  /** A live waiting card past its date whose episode has not been claimed. */
  predicate Due(db: Db, today: Day, c: CardId) {
    && c in db.cards
    && db.cards[c].lane in db.lanes
    && db.lanes[db.cards[c].lane].board in db.live
    && db.lanes[db.cards[c].lane].key == WaitingPartsVendor
    && db.cards[c].archivedAt.None?
    && db.cards[c].expectedResumeAt.Some? && db.cards[c].expectedResumeAt.value < today
    && db.cards[c].resumeAlertedAt.None?
  }

  function ClaimOverdue(x: Ctx, db: Db): Outcome<Db> {
    Success(db.(cards := map c | c in db.cards ::
      if Due(db, x.today, c) then db.cards[c].(resumeAlertedAt := Some(x.now)) else db.cards[c]))
  }

  // ---- Blocked flag, notes, discard ----

  function RefuseSetBlocked(x: Ctx, db: Db, id: CardId, reason: Option<string>, expectedVersion: nat): Option<Error> {
    if !Reachable(x, db, id) then Some(NotFound)
    else
      var card := db.cards[id];
      var action := if reason.Some? then ToBlock else ToUnblock;
      if card.archivedAt.Some? then Some(ReadOnlyArchived)
      else if x.policy(card.board, action) != Allowed then Refusal(x.policy(card.board, action))
      else if card.version != expectedVersion then Some(Conflicting(StaleVersion))
      else if card.blocked == reason.Some? then Some(Conflicting(BlockStateUnchanged))
      else None
  }

  function BlockedRow(card: Card, reason: Option<string>, now: Time): Card {
    card.(blocked := reason.Some?, blockedReason := reason, blockedAt := if reason.Some? then Some(now) else None,
          version := card.version + 1, updatedAt := now)
  }

  function SetBlocked(x: Ctx, db: Db, id: CardId, reason: Option<string>, expectedVersion: nat): Outcome<Db>
    requires WellFormed(db)
  {
    var refusal := RefuseSetBlocked(x, db, id, reason, expectedVersion);
    if refusal.Some? then Failure(refusal.value)
    else Save(db, BlockedRow(db.cards[id], reason, x.now), x.now,
              [if reason.Some? then BlockRaised(reason.value) else BlockCleared])
  }

  function RefuseNote(x: Ctx, db: Db, id: CardId): Option<Error> {
    if !Reachable(x, db, id) then Some(NotFound)
    else if db.cards[id].archivedAt.Some? then Some(ReadOnlyArchived)
    else Refusal(x.policy(db.cards[id].board, ToNote))
  }

  /** A comment or attachment command: it appends one event and leaves the row alone. */
  function Note(x: Ctx, db: Db, id: CardId): Outcome<Db>
    requires WellFormed(db)
  {
    var refusal := RefuseNote(x, db, id);
    if refusal.Some? then Failure(refusal.value)
    else Save(db, db.cards[id], x.now, [Noted])
  }

  function RefuseDiscard(x: Ctx, db: Db, id: CardId, expectedVersion: nat): Option<Error>
    requires WellFormed(db)
  {
    if !Reachable(x, db, id) then Some(NotFound)
    else
      var card := db.cards[id];
      if x.policy(card.board, ToDelete(card.reporter)) != Allowed then Refusal(x.policy(card.board, ToDelete(card.reporter)))
      else if card.version != expectedVersion then Some(Conflicting(StaleVersion))
      else if FirstLane(db, card.board) != Some(card.lane) then Some(Conflicting(NotInFirstColumn))
      else None
  }

  /** A discard erases the row and its whole trail. */
  function Discard(x: Ctx, db: Db, id: CardId, expectedVersion: nat): Outcome<Db>
    requires WellFormed(db)
  {
    var refusal := RefuseDiscard(x, db, id, expectedVersion);
    if refusal.Some? then Failure(refusal.value)
    else Success(db.(cards := db.cards - {id}, log := db.log - {id}, cardTags := db.cardTags - {id}))
  }

  // ---- Lanes, boards, locations ----

  function RefuseLaneAdmin(x: Ctx, db: Db, board: BoardId): Option<Error> {
    if !Visible(x, db, board) then Some(NotFound) else Refusal(x.policy(board, ToManageLanes))
  }

  /** The greatest column position of the board, or -1. */
  function LastLanePosition(db: Db, board: BoardId): (p: int)
    ensures p >= -1 && forall l :: l in LanesOf(db, board) ==> db.lanes[l].position <= p
  {
    var positions := (set l | l in LanesOf(db, board) :: db.lanes[l].position) + {-1};
    Finite.GreatestExists(positions);
    var p :| p in positions && forall q :: q in positions ==> q <= p;
    assert forall l :: l in LanesOf(db, board) ==> db.lanes[l].position in positions;
    p
  }

  /** A new column goes last; its id is fresh and its key is unused on the board. */
  function CreateLane(x: Ctx, db: Db, board: BoardId, id: LaneId, key: LaneKey, wipLimit: Option<nat>): Outcome<Db>
    requires WellFormed(db)
  {
    if RefuseLaneAdmin(x, db, board).Some? then Failure(RefuseLaneAdmin(x, db, board).value)
    else if id in db.keyEver || LaneByKey(db, board, key).Some? then Failure(Conflicting(KeyTaken))
    else Success(AddLane(db, id, Lane(board, key, LastLanePosition(db, board) + 1, wipLimit)))
  }

  function AddLane(db: Db, id: LaneId, lane: Lane): Db {
    db.(lanes := db.lanes[id := lane], keyEver := db.keyEver[id := lane.key])
  }

  function LimitLane(x: Ctx, db: Db, board: BoardId, id: LaneId, wipLimit: Option<nat>): Outcome<Db> {
    if RefuseLaneAdmin(x, db, board).Some? then Failure(RefuseLaneAdmin(x, db, board).value)
    else if id !in LanesOf(db, board) then Failure(NotFound)
    else Success(db.(lanes := db.lanes[id := db.lanes[id].(wipLimit := wipLimit)]))
  }

  function RemoveLane(x: Ctx, db: Db, board: BoardId, id: LaneId): Outcome<Db> {
    if RefuseLaneAdmin(x, db, board).Some? then Failure(RefuseLaneAdmin(x, db, board).value)
    else if id !in LanesOf(db, board) then Failure(NotFound)
    else if |LanesOf(db, board)| <= 1 then Failure(Conflicting(LastLane))
    else if FirstKey(db.cards, id).Some? then Failure(Conflicting(LaneNotEmpty))
    else Success(db.(lanes := db.lanes - {id}))
  }

  /** Every column of the board, exactly once. */
  predicate IsFullOrder(db: Db, board: BoardId, order: seq<LaneId>) {
    && |order| == |LanesOf(db, board)|
    && (forall i, j :: 0 <= i < j < |order| ==> order[i] != order[j])
    && (forall i :: 0 <= i < |order| ==> order[i] in LanesOf(db, board))
  }

  function Rank(order: seq<LaneId>, l: LaneId): (i: nat)
    ensures i <= |order|
    ensures l in order ==> i < |order| && order[i] == l
  {
    if order == [] then 0 else if order[0] == l then 0 else 1 + Rank(order[1..], l)
  }

  function ReorderLanes(x: Ctx, db: Db, board: BoardId, order: seq<LaneId>): Outcome<Db> {
    if RefuseLaneAdmin(x, db, board).Some? then Failure(RefuseLaneAdmin(x, db, board).value)
    else if !IsFullOrder(db, board, order) then Failure(Conflicting(IncompleteOrder))
    else Success(db.(lanes := map l | l in db.lanes ::
      if l in order then db.lanes[l].(position := Rank(order, l)) else db.lanes[l]))
  }

  const DEFAULT_KEYS := [Other("intake"), Other("waiting_approval"), Ready, InProgress, WaitingPartsVendor, Other("review"), Done]
  const DEFAULT_LIMITS: seq<Option<nat>> := [None, None, None, Some(5), Some(8), Some(5), None]

  /** The default columns, under the ids given for them. */
  function DefaultLanes(board: BoardId, ids: seq<LaneId>): map<LaneId, Lane>
    requires |ids| == |DEFAULT_KEYS|
  {
    map l | l in ids :: Lane(board, DEFAULT_KEYS[Rank(ids, l)], Rank(ids, l), DEFAULT_LIMITS[Rank(ids, l)])
  }

  /** New ids, which no board and no column has had. */
  predicate AreNew(db: Db, board: BoardId, ids: seq<LaneId>) {
    && |ids| == |DEFAULT_KEYS| && board !in db.live && LanesOf(db, board) == {}
    && (forall i, j :: 0 <= i < j < |ids| ==> ids[i] != ids[j])
    && (forall l :: l in ids ==> l !in db.keyEver)
  }

  function OpenBoard(x: Ctx, db: Db, board: BoardId, ids: seq<LaneId>): Outcome<Db> {
    if x.policy(board, ToManageBoards) != Allowed then Failure(Refusal(x.policy(board, ToManageBoards)).value)
    else if !AreNew(db, board, ids) then Failure(Conflicting(KeyTaken))
    else Success(AddBoard(db, board, DefaultLanes(board, ids)))
  }

  function AddBoard(db: Db, board: BoardId, lanes: map<LaneId, Lane>): Db {
    db.(live := db.live + {board}, lanes := db.lanes + lanes, keyEver := db.keyEver + map l | l in lanes :: lanes[l].key)
  }

  /** Deleting a board only hides it; one board always stays. */
  function HideBoard(x: Ctx, db: Db, board: BoardId): Outcome<Db> {
    if x.policy(board, ToManageBoards) != Allowed then Failure(Refusal(x.policy(board, ToManageBoards)).value)
    else if !Visible(x, db, board) then Failure(NotFound)
    else if |db.live| <= 1 then Failure(Conflicting(LastBoard))
    else Success(db.(live := db.live - {board}))
  }

  /** What deleting a location subtree does to the cards: the reference is dropped, silently. */
  function ForgetLocations(db: Db, gone: set<LocationId>): Outcome<Db> {
    Success(db.(cards := map c | c in db.cards ::
      if db.cards[c].location.Some? && db.cards[c].location.value in gone then db.cards[c].(location := None)
      else db.cards[c]))
  }

  // ---- Rebalancing ----

  const MAX_KEY_LENGTH := 100

  /** The rows of `ids` get the keys of the same index, in turn. */
  function Rekeyed(cards: map<CardId, Card>, ids: seq<CardId>, keys: seq<Key>): map<CardId, Card>
    requires |ids| <= |keys|
    decreases |ids|
  {
    if ids == [] then cards
    else
      var n := |ids| - 1;
      var before := Rekeyed(cards, ids[..n], keys);
      if ids[n] in before then before[ids[n] := before[ids[n]].(position := keys[n])] else before
  }

  predicate Outgrown(x: Ctx, db: Db, lane: LaneId) {
    exists c :: c in ActiveIn(db.cards, lane) && x.keyGen.length(db.cards[c].position) > MAX_KEY_LENGTH
  }

  function Rebalance(x: Ctx, db: Db, lane: LaneId): Outcome<Db>
    requires WellFormed(db)
  {
    if !Outgrown(x, db, lane) then Success(db)
    else
      var ids := ActiveList(db.cards, lane);
      Success(db.(cards := Rekeyed(db.cards, ids, x.keyGen.after(LastKey(db.cards, lane), |ids|))))
  }

  // ---- All of them ----

  datatype Command =
    | DoCreate(board: BoardId, creation: CreateInput)
    | DoUpdate(id: CardId, edit: UpdateInput)
    | DoMove(id: CardId, move: MoveInput)
    | DoCancel(id: CardId, resolution: Resolution, expectedVersion: nat)
    | DoReopen(id: CardId, expectedVersion: nat)
    | DoArchive(id: CardId, expectedVersion: nat)
    | DoArchiveOne(id: CardId, lane: LaneId, cutoff: Time)
    | DoClaim
    | DoSetBlocked(id: CardId, reason: Option<string>, expectedVersion: nat)
    | DoNote(id: CardId)
    | DoDiscard(id: CardId, expectedVersion: nat)
    | DoCreateLane(board: BoardId, lane: LaneId, key: LaneKey, wipLimit: Option<nat>)
    | DoLimitLane(board: BoardId, lane: LaneId, wipLimit: Option<nat>)
    | DoRemoveLane(board: BoardId, lane: LaneId)
    | DoReorderLanes(board: BoardId, order: seq<LaneId>)
    | DoOpenBoard(board: BoardId, ids: seq<LaneId>)
    | DoHideBoard(board: BoardId)
    | DoForgetLocations(gone: set<LocationId>)
    | DoRebalance(lane: LaneId)

  function Execute(x: Ctx, db: Db, c: Command): Outcome<Db>
    requires WellFormed(db)
  {
    match c
    case DoCreate(board, input) => Create(x, db, board, input)
    case DoUpdate(id, input) => Update(x, db, id, input)
    case DoMove(id, input) => Move(x, db, id, input)
    case DoCancel(id, resolution, version) => Cancel(x, db, id, resolution, version)
    case DoReopen(id, version) => Reopen(x, db, id, version)
    case DoArchive(id, version) => Archive(x, db, id, version)
    case DoArchiveOne(id, lane, cutoff) => ArchiveOne(x.now, db, id, lane, cutoff)
    case DoClaim => ClaimOverdue(x, db)
    case DoSetBlocked(id, reason, version) => SetBlocked(x, db, id, reason, version)
    case DoNote(id) => Note(x, db, id)
    case DoDiscard(id, version) => Discard(x, db, id, version)
    case DoCreateLane(board, lane, key, wip) => CreateLane(x, db, board, lane, key, wip)
    case DoLimitLane(board, lane, wip) => LimitLane(x, db, board, lane, wip)
    case DoRemoveLane(board, lane) => RemoveLane(x, db, board, lane)
    case DoReorderLanes(board, order) => ReorderLanes(x, db, board, order)
    case DoOpenBoard(board, ids) => OpenBoard(x, db, board, ids)
    case DoHideBoard(board) => HideBoard(x, db, board)
    case DoForgetLocations(gone) => ForgetLocations(db, gone)
    case DoRebalance(lane) => Rebalance(x, db, lane)
  }

  /** The tables after a command: a failed one leaves them as they were. */
  function Step(x: Ctx, db: Db, c: Command): Db
    requires WellFormed(db)
  {
    var outcome := Execute(x, db, c);
    if outcome.Success? then outcome.value else db
  }
}
