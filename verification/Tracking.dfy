/**
 * The fields that a trail does not always tell: the waiting reason and date, which a move into the waiting lane sets
 * without saying so, and the location, which the deletion of a location clears silently. What the trail does tell of
 * them is replayed here: every old value that an event states is the last one known.
 */
module Tracking {
  import opened Wrappers
  import opened Keys
  import opened Domain
  import opened Audit
  import opened Store
  import opened Commands
  import opened Integrity
  import opened Records
  import opened Trails
  import opened Effects

  /** `None` is an unknown reason or date. `undo` is the cancellation of a cancelled card. */
  datatype Track = Track(
    reason: Option<Option<string>>,
    resume: Option<Option<Day>>,
    location: Option<LocationId>,
    undo: Option<Cancellation>)

  function Start(card: Card): Track {
    Track(Some(card.waitingReason), Some(card.expectedResumeAt), card.location, None)
  }

  function NextChange(t: Track, c: FieldChange): Track {
    match c
    case LocationChange(_, to) => t.(location := to)
    case ReasonChange(_, to) => t.(reason := Some(to))
    case ResumeChange(_, to) => t.(resume := Some(to))
    case _ => t
  }

  /** A cancelled card goes back to the waiting lane with what its cancellation recorded. */
  function NextReopened(t: Track, to: LaneKey): Track {
    if to == WaitingPartsVendor && t.undo.Some? && t.undo.value.priorLane == to && t.undo.value.waiting.Some? then
      Track(Some(Some(t.undo.value.waiting.value.reason)), Some(t.undo.value.waiting.value.resumeAt), t.location, None)
    else t.(undo := None)
  }

  function Next(t: Track, b: Body): Track {
    match b
    case StatusChanged(from, to, _, _) =>
      var moved := if from == Done || to == Done then t.(undo := None) else t;
      if from == WaitingPartsVendor then moved.(reason := Some(None), resume := Some(None))
      else if to == WaitingPartsVendor then moved.(reason := None, resume := None)
      else moved
    case FieldChanged(change) => NextChange(t, change)
    case CardCancelled(record) => Track(Some(None), Some(None), t.location, Some(record))
    case Reopened(to) => NextReopened(t, to)
    case _ => t
  }

  /** The old value is the known one; a location may have been cleared since. */
  predicate TellsChange(t: Track, c: FieldChange) {
    match c
    case LocationChange(from, _) => from == t.location || from.None?
    case ReasonChange(from, _) => t.reason.Some? ==> from == t.reason.value
    case ResumeChange(from, _) => t.resume.Some? ==> from == t.resume.value
    case _ => true
  }

  /** A cancellation records the known reason and date, and records them exactly when there is a reason. */
  predicate TellsWaiting(t: Track, waiting: Option<Waiting>) {
    && (t.reason.Some? ==> t.reason.value == if waiting.Some? then Some(waiting.value.reason) else None)
    && (t.resume.Some? && waiting.Some? ==> waiting.value.resumeAt == t.resume.value)
  }

  predicate Tells(t: Track, b: Body) {
    match b
    case FieldChanged(change) => TellsChange(t, change)
    case CardCancelled(record) => TellsWaiting(t, record.waiting)
    case _ => true
  }

  function Trace(log: seq<Event>): Track
    requires |log| > 0 && log[0].body.Created?
  {
    if |log| == 1 then Start(log[0].body.snapshot) else Next(Trace(log[..|log| - 1]), log[|log| - 1].body)
  }

  predicate Consistent(log: seq<Event>) {
    && |log| > 0 && log[0].body.Created? && !IsCancelled(log[0].body.snapshot)
    && (|log| > 1 ==> Consistent(log[..|log| - 1]) && Tells(Trace(log[..|log| - 1]), log[|log| - 1].body))
  }

  /** What is known of a card is so. */
  predicate Agrees(t: Track, card: Card) {
    && (t.reason.Some? ==> card.waitingReason == t.reason.value)
    && (t.resume.Some? ==> card.expectedResumeAt == t.resume.value)
    && (card.location == t.location || card.location.None?)
    && (t.undo.Some? <==> IsCancelled(card))
  }

  predicate Tracked(card: Card, log: seq<Event>) {
    Consistent(log) && Agrees(Trace(log), card)
  }

  ghost predicate AllTracked(db: Db) {
    forall c :: c in db.cards ==> c in db.log && Tracked(db.cards[c], db.log[c])
  }

  lemma {:induction false} UndoIsLastCancel(log: seq<Event>)
    requires Consistent(log)
    ensures Trace(log).undo.Some? ==> LastCancel(log) == Trace(log).undo
    decreases |log|
  {
    if |log| > 1 {
      UndoIsLastCancel(log[..|log| - 1]);
    }
  }

  // ---- Several events of one command ----

  function NextAll(t: Track, bodies: seq<Body>): Track {
    if bodies == [] then t else Next(NextAll(t, bodies[..|bodies| - 1]), bodies[|bodies| - 1])
  }

  predicate TellsAll(t: Track, bodies: seq<Body>) {
    bodies == [] || (TellsAll(t, bodies[..|bodies| - 1]) && Tells(NextAll(t, bodies[..|bodies| - 1]), bodies[|bodies| - 1]))
  }

  lemma OneMoreTold(log: seq<Event>, e: Event)
    requires Consistent(log) && Tells(Trace(log), e.body)
    ensures Consistent(log + [e]) && Trace(log + [e]) == Next(Trace(log), e.body)
  {
    assert (log + [e])[..|log|] == log;
  }

  lemma {:induction false} MoreTold(log: seq<Event>, first: EventId, now: Time, bodies: seq<Body>)
    requires Consistent(log) && TellsAll(Trace(log), bodies)
    ensures Consistent(log + Stamp(first, now, bodies))
    ensures Trace(log + Stamp(first, now, bodies)) == NextAll(Trace(log), bodies)
    decreases |bodies|
  {
    if bodies == [] {
      assert log + Stamp(first, now, bodies) == log;
    } else {
      var n := |bodies| - 1;
      MoreTold(log, first, now, bodies[..n]);
      var last := Event(first + n, now, bodies[n]);
      OneMoreTold(log + Stamp(first, now, bodies[..n]), last);
      assert log + Stamp(first, now, bodies) == log + Stamp(first, now, bodies[..n]) + [last];
    }
  }

  // ---- One saved row ----

  lemma SaveTracked(db: Db, db': Db, card: Card, now: Time, bodies: seq<Body>)
    requires AllTracked(db) && card.id in db.cards && Save(db, card, now, bodies) == Success(db')
    requires var t := Trace(db.log[card.id]); TellsAll(t, bodies) && Agrees(NextAll(t, bodies), card)
    ensures AllTracked(db')
  {
    MoreTold(db.log[card.id], db.nextEvent, now, bodies);
  }

  lemma OneBodyTold(t: Track, b: Body)
    ensures NextAll(t, [b]) == Next(t, b) && (TellsAll(t, [b]) <==> Tells(t, b))
  {
    assert [b][..0] == [];
  }

  lemma SaveOneTracked(db: Db, db': Db, card: Card, now: Time, b: Body)
    requires AllTracked(db) && card.id in db.cards && Save(db, card, now, [b]) == Success(db')
    requires var t := Trace(db.log[card.id]); Tells(t, b) && Agrees(Next(t, b), card)
    ensures AllTracked(db')
  {
    OneBodyTold(Trace(db.log[card.id]), b);
    SaveTracked(db, db', card, now, [b]);
  }

  // ---- Field edits ----

  /** The draft's events tell of the draft's row. */
  predicate Told(t: Track, d: Draft) {
    TellsAll(t, d.bodies) && Agrees(NextAll(t, d.bodies), d.card)
  }

  lemma EditTold(t: Track, d: Draft, card: Card, c: FieldChange)
    requires Told(t, d)
    requires var u := NextAll(t, d.bodies); TellsChange(u, c) && Agrees(NextChange(u, c), card)
    ensures Told(t, Draft(card, d.bodies + [FieldChanged(c)]))
  {
    assert (d.bodies + [FieldChanged(c)])[..|d.bodies|] == d.bodies;
  }

  lemma TextEditsTold(t: Track, d: Draft, input: UpdateInput)
    requires Told(t, d)
    ensures Told(t, EditPriority(EditDescription(EditTitle(d, input.title), input.description), input.priority))
  {
    var d1 := EditTitle(d, input.title);
    if d1 != d {
      EditTold(t, d, d1.card, TitleChange(d.card.title, input.title.value));
    }
    var d2 := EditDescription(d1, input.description);
    if d2 != d1 {
      EditTold(t, d1, d2.card, DescriptionChange(d1.card.description, input.description.value));
    }
    var d3 := EditPriority(d2, input.priority);
    if d3 != d2 {
      EditTold(t, d2, d3.card, PriorityChange(d2.card.priority, input.priority.value));
    }
  }

  lemma PlaceEditsTold(t: Track, d: Draft, input: UpdateInput)
    requires Told(t, d)
    ensures Told(t, EditLocation(EditAssignee(EditEstimate(d, input.estimate), input.assignee), input.location))
  {
    var d1 := EditEstimate(d, input.estimate);
    if d1 != d {
      EditTold(t, d, d1.card, EstimateChange(d.card.estimate, input.estimate.value));
    }
    var d2 := EditAssignee(d1, input.assignee);
    if d2 != d1 {
      EditTold(t, d1, d2.card, AssigneeChange(d1.card.assignee, input.assignee.value));
    }
    var d3 := EditLocation(d2, input.location);
    if d3 != d2 {
      EditTold(t, d2, d3.card, LocationChange(d2.card.location, input.location.value));
    }
  }

  lemma WaitingEditsTold(t: Track, d: Draft, input: UpdateInput)
    requires Told(t, d)
    ensures Told(t, EditResume(EditReason(d, input.waitingReason), input.expectedResumeAt))
  {
    var d1 := EditReason(d, input.waitingReason);
    if d1 != d {
      EditTold(t, d, d1.card, ReasonChange(d.card.waitingReason, input.waitingReason));
    }
    var d2 := EditResume(d1, input.expectedResumeAt);
    if d2 != d1 {
      EditTold(t, d1, d2.card, ResumeChange(d1.card.expectedResumeAt, input.expectedResumeAt));
    }
  }

  lemma EditsTold(db: Db, id: CardId, input: UpdateInput, t: Track)
    requires WellFormed(db) && id in db.cards && Agrees(t, db.cards[id])
    ensures Told(t, EditAll(db, id, input))
  {
    var d0 := Draft(db.cards[id], []);
    TextEditsTold(t, d0, input);
    var d1 := EditPriority(EditDescription(EditTitle(d0, input.title), input.description), input.priority);
    PlaceEditsTold(t, d1, input);
    var d2 := EditFields(db.cards[id], input);
    var (tags, folded) := WantedTags(db, id, input.tags);
    var from, to := TagNames(db.tags, db.cardTags[id]), TagNames(tags, folded);
    var d3 := EditTags(d2, folded != db.cardTags[id], from, to);
    if folded != db.cardTags[id] {
      EditTold(t, d2, d2.card, TagsChange(from, to));
    }
    WaitingEditsTold(t, d3, input);
  }

  lemma UpdateTracked(x: Ctx, db: Db, id: CardId, input: UpdateInput)
    requires WellFormed(db) && AllTracked(db) && Update(x, db, id, input).Success?
    ensures AllTracked(Update(x, db, id, input).value)
  {
    var (tags, folded) := WantedTags(db, id, input.tags);
    var draft := EditAll(db, id, input);
    EditsTold(db, id, input, Trace(db.log[id]));
    if draft.bodies != [] {
      var retagged := db.(tags := tags, cardTags := db.cardTags[id := folded]);
      SaveTracked(retagged, Update(x, db, id, input).value, Edited(draft.card, x.now), x.now, draft.bodies);
    }
  }

  // ---- The other commands ----

  lemma CreateTracked(x: Ctx, db: Db, board: BoardId, input: CreateInput)
    requires WellFormed(db) && AllTracked(db) && Create(x, db, board, input).Success?
    ensures AllTracked(Create(x, db, board, input).value)
  {
    TagsResolved(db.tags, input.tags);
    var (tags, folded) := ResolveTags(db.tags, input.tags);
    InsertTracked(db, Create(x, db, board, input).value,
                  NewCard(x, db, board, FirstLane(db, board).value, input), x.now, tags, folded);
  }

  lemma InsertTracked(db: Db, db': Db, card: Card, now: Time, tags: map<string, string>, folded: set<string>)
    requires AllTracked(db) && !IsCancelled(card) && folded <= tags.Keys && Insert(db, card, now, tags, folded) == Success(db')
    ensures AllTracked(db')
  {
  }

  lemma CrossingTold(card: Card, from: LaneKey, lane: LaneId, input: MoveInput, position: Key, now: Time, t: Track,
                     exceeded: bool)
    requires Agrees(t, card) && (lane != card.lane ==> from != input.to)
    ensures var row := Relocated(card, from, lane, input.to, position, input.waitingReason, input.expectedResumeAt, now);
            var b := StatusChanged(from, input.to, exceeded, from == WaitingPartsVendor);
            Agrees(if lane == card.lane then t else Next(t, b), row)
  {
  }

  lemma MoveTold(x: Ctx, db: Db, id: CardId, input: MoveInput, t: Track)
    requires WellFormed(db) && RefuseMove(x, db, id, input).None? && Agrees(t, db.cards[id])
    ensures var b := MovedBody(db, id, input);
            MovedRow(x, db, id, input).id == id && Tells(t, b) && Agrees(Next(t, b), MovedRow(x, db, id, input))
  {
    var card, lane, b := db.cards[id], LaneByKey(db, db.cards[id].board, input.to).value, MovedBody(db, id, input);
    CrossingTold(card, KeyOf(db, card), lane, input, MovedRow(x, db, id, input).position, x.now, t,
                 b.StatusChanged? && b.wipLimitExceeded);
  }

  lemma MoveTracked(x: Ctx, db: Db, id: CardId, input: MoveInput)
    requires WellFormed(db) && AllTracked(db) && Move(x, db, id, input).Success?
    ensures AllTracked(Move(x, db, id, input).value)
  {
    MoveTold(x, db, id, input, Trace(db.log[id]));
    SaveOneTracked(db, Move(x, db, id, input).value, MovedRow(x, db, id, input), x.now, MovedBody(db, id, input));
  }

  lemma CancelTold(x: Ctx, db: Db, id: CardId, resolution: Resolution, version: nat, t: Track)
    requires WellFormed(db) && RefuseCancel(x, db, id, resolution, version).None? && Agrees(t, db.cards[id])
    ensures var row := CancelledRow(x, db, id, resolution, LaneByKey(db, db.cards[id].board, Done).value);
            var b := CardCancelled(CancellationOf(db, db.cards[id], resolution));
            row.id == id && Tells(t, b) && Agrees(Next(t, b), row)
  {
  }

  lemma CancelTracked(x: Ctx, db: Db, id: CardId, resolution: Resolution, version: nat)
    requires WellFormed(db) && AllTracked(db) && Cancel(x, db, id, resolution, version).Success?
    ensures AllTracked(Cancel(x, db, id, resolution, version).value)
  {
    var card := db.cards[id];
    CancelTold(x, db, id, resolution, version, Trace(db.log[id]));
    CancelledTracked(db, Cancel(x, db, id, resolution, version).value,
                     CancelledRow(x, db, id, resolution, LaneByKey(db, card.board, Done).value), x.now,
                     CancellationOf(db, card, resolution));
  }

  lemma CancelledTracked(db: Db, db': Db, row: Card, now: Time, record: Cancellation)
    requires AllTracked(db) && row.id in db.cards && Save(db, row, now, [CardCancelled(record)]) == Success(db')
    requires var t := Trace(db.log[row.id]); Tells(t, CardCancelled(record)) && Agrees(Next(t, CardCancelled(record)), row)
    ensures AllTracked(db')
  {
    SaveOneTracked(db, db', row, now, CardCancelled(record));
  }

  /** The trail tells a restored waiting state from one that the card kept. */
  lemma ReopenTold(x: Ctx, db: Db, id: CardId, t: Track)
    requires WellFormed(db) && id in db.cards && ReopenTarget(db, db.cards[id]).Some? && Agrees(t, db.cards[id])
    requires t.undo.Some? ==> LastCancel(db.log[id]) == t.undo
    ensures Agrees(NextReopened(t, db.lanes[ReopenTarget(db, db.cards[id]).value].key), ReopenedRow(x, db, id))
  {
  }

  lemma ReopenTracked(x: Ctx, db: Db, id: CardId, version: nat)
    requires WellFormed(db) && AllTracked(db) && Reopen(x, db, id, version).Success?
    ensures AllTracked(Reopen(x, db, id, version).value)
  {
    ReopenSaves(x, db, id, version);
    UndoIsLastCancel(db.log[id]);
    ReopenTold(x, db, id, Trace(db.log[id]));
    var row, to := ReopenedRow(x, db, id), db.lanes[ReopenTarget(db, db.cards[id]).value].key;
    ReopenedTracked(db, Reopen(x, db, id, version).value, row, x.now, to);
  }

  lemma ReopenSaves(x: Ctx, db: Db, id: CardId, version: nat)
    requires WellFormed(db) && Reopen(x, db, id, version).Success?
    ensures id in db.cards && id in db.log && ReopenTarget(db, db.cards[id]).Some? && ReopenedRow(x, db, id).id == id
    ensures Save(db, ReopenedRow(x, db, id), x.now, [Reopened(db.lanes[ReopenTarget(db, db.cards[id]).value].key)])
            == Reopen(x, db, id, version)
  {
  }

  lemma ReopenedTracked(db: Db, db': Db, row: Card, now: Time, to: LaneKey)
    requires AllTracked(db) && row.id in db.cards && Save(db, row, now, [Reopened(to)]) == Success(db')
    requires Agrees(NextReopened(Trace(db.log[row.id]), to), row)
    ensures AllTracked(db')
  {
    SaveOneTracked(db, db', row, now, Reopened(to));
  }

  /** Events that say nothing of these fields, with a row that leaves them alone. */
  lemma InPlaceTracked(db: Db, db': Db, card: Card, now: Time, b: Body)
    requires AllTracked(db) && card.id in db.cards && Save(db, card, now, [b]) == Success(db')
    requires b.BlockRaised? || b.BlockCleared? || b.CardArchived? || b.Noted?
    requires var was := db.cards[card.id];
             && card.waitingReason == was.waitingReason && card.expectedResumeAt == was.expectedResumeAt
             && card.location == was.location && card.resolution == was.resolution
    ensures AllTracked(db')
  {
    SaveOneTracked(db, db', card, now, b);
  }

  lemma ArchiveTracked(x: Ctx, db: Db, id: CardId, version: nat)
    requires WellFormed(db) && AllTracked(db) && Archive(x, db, id, version).Success?
    ensures AllTracked(Archive(x, db, id, version).value)
  {
    InPlaceTracked(db, Archive(x, db, id, version).value, ArchivedRow(db.cards[id], x.now), x.now, CardArchived);
  }

  lemma NoteTracked(x: Ctx, db: Db, id: CardId)
    requires WellFormed(db) && AllTracked(db) && Note(x, db, id).Success?
    ensures AllTracked(Note(x, db, id).value)
  {
    InPlaceTracked(db, Note(x, db, id).value, db.cards[id], x.now, Noted);
  }

  lemma ArchiveOneTracked(now: Time, db: Db, id: CardId, lane: LaneId, cutoff: Time)
    requires WellFormed(db) && AllTracked(db)
    ensures AllTracked(ArchiveOne(now, db, id, lane, cutoff).value)
  {
    ArchiveOneKeeps(now, db, id, lane, cutoff);
    var db' := ArchiveOne(now, db, id, lane, cutoff).value;
    if db' != db {
      InPlaceTracked(db, db', ArchivedRow(db.cards[id], now), now, CardArchived);
    }
  }

  lemma SetBlockedTracked(x: Ctx, db: Db, id: CardId, reason: Option<string>, version: nat)
    requires WellFormed(db) && AllTracked(db) && SetBlocked(x, db, id, reason, version).Success?
    ensures AllTracked(SetBlocked(x, db, id, reason, version).value)
  {
    InPlaceTracked(db, SetBlocked(x, db, id, reason, version).value, BlockedRow(db.cards[id], reason, x.now), x.now,
                   if reason.Some? then BlockRaised(reason.value) else BlockCleared);
  }

  lemma DiscardTracked(x: Ctx, db: Db, id: CardId, version: nat)
    requires WellFormed(db) && AllTracked(db) && Discard(x, db, id, version).Success?
    ensures AllTracked(Discard(x, db, id, version).value)
  {
  }

  lemma QuietTracked(db: Db, db': Db)
    requires AllTracked(db) && Quiet(db, db') && CardsPlaced(db.lanes, db.cards)
    ensures AllTracked(db')
  {
    forall c | c in db'.cards
      ensures c in db'.log && Tracked(db'.cards[c], db'.log[c])
    {
      assert Held(db, c);
    }
  }

  lemma CardStepTracked(x: Ctx, db: Db, c: Command)
    requires WellFormed(db) && AllTracked(db) && !IsAdministrative(c) && Execute(x, db, c).Success?
    ensures AllTracked(Execute(x, db, c).value)
  {
    match c
    case DoCreate(board, input) => CreateTracked(x, db, board, input);
    case DoUpdate(id, input) => UpdateTracked(x, db, id, input);
    case DoMove(id, input) => MoveTracked(x, db, id, input);
    case DoCancel(id, resolution, version) => CancelTracked(x, db, id, resolution, version);
    case DoReopen(id, version) => ReopenTracked(x, db, id, version);
    case DoArchive(id, version) => ArchiveTracked(x, db, id, version);
    case DoArchiveOne(id, lane, cutoff) => ArchiveOneTracked(x.now, db, id, lane, cutoff);
    case DoSetBlocked(id, reason, version) => SetBlockedTracked(x, db, id, reason, version);
    case DoNote(id) => NoteTracked(x, db, id);
    case DoDiscard(id, version) => DiscardTracked(x, db, id, version);
  }

  /** Whatever the command, what the trails tell of reasons, dates and locations stays true. */
  lemma StepTracked(x: Ctx, db: Db, c: Command)
    requires WellFormed(db) && AllTracked(db)
    ensures AllTracked(Step(x, db, c))
  {
    if Execute(x, db, c).Success? {
      if IsAdministrative(c) {
        AdministrationQuiet(x, db, c);
        QuietTracked(db, Execute(x, db, c).value);
      } else {
        CardStepTracked(x, db, c);
      }
    }
  }

  // ---- What that gives a reader of a trail ----

  /** Nothing from event `i` to event `j` starts or ends a waiting episode or edits the reason, or else the date. */
  predicate WithinEpisode(log: seq<Event>, i: nat, j: nat, isReason: bool)
    requires i <= j <= |log|
  {
    forall k :: i <= k < j ==>
      && !log[k].body.StatusChanged? && !log[k].body.CardCancelled? && !log[k].body.Reopened?
      && (log[k].body.FieldChanged? ==> if isReason then !log[k].body.change.ReasonChange? else !log[k].body.change.ResumeChange?)
  }

  lemma ConsistentFront(log: seq<Event>, n: nat)
    requires Consistent(log) && 0 < n <= |log|
    ensures Consistent(log[..n])
    decreases |log| - n
  {
    if n == |log| {
      assert log[..n] == log;
    } else {
      ConsistentFront(log, n + 1);
      assert log[..n + 1][..n] == log[..n];
    }
  }

  lemma {:induction false} KnownStays(log: seq<Event>, i: nat, j: nat, isReason: bool)
    requires Consistent(log) && 0 < i <= j <= |log| && WithinEpisode(log, i, j, isReason)
    ensures if isReason then Trace(log[..j]).reason == Trace(log[..i]).reason
            else Trace(log[..j]).resume == Trace(log[..i]).resume
    decreases j
  {
    if i < j {
      KnownStays(log, i, j - 1, isReason);
      assert log[..j][..j - 1] == log[..j - 1];
    }
  }

  /** Within a waiting episode each edit of the reason starts from the value that the one before it left. */
  lemma ReasonEditsChain(log: seq<Event>, i: nat, j: nat)
    requires Consistent(log) && 0 < i < j < |log| && WithinEpisode(log, i + 1, j, true)
    requires log[i].body.FieldChanged? && log[i].body.change.ReasonChange?
    requires log[j].body.FieldChanged? && log[j].body.change.ReasonChange?
    ensures log[j].body.change.fromReason == log[i].body.change.toReason
  {
    assert log[..i + 1][..i] == log[..i];
    KnownStays(log, i + 1, j, true);
    ConsistentFront(log, j + 1);
    assert log[..j + 1][..j] == log[..j];
  }

  /** And so does each edit of the date. */
  lemma DateEditsChain(log: seq<Event>, i: nat, j: nat)
    requires Consistent(log) && 0 < i < j < |log| && WithinEpisode(log, i + 1, j, false)
    requires log[i].body.FieldChanged? && log[i].body.change.ResumeChange?
    requires log[j].body.FieldChanged? && log[j].body.change.ResumeChange?
    ensures log[j].body.change.fromResume == log[i].body.change.toResume
  {
    assert log[..i + 1][..i] == log[..i];
    KnownStays(log, i + 1, j, false);
    ConsistentFront(log, j + 1);
    assert log[..j + 1][..j] == log[..j];
  }
}
