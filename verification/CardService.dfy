/**
 * The card service over its tables: one method per command, in the order in which the service checks and writes.
 * Each method does to the tables exactly what its specification in `Commands` says.
 */
module CardService {
  import opened Wrappers
  import opened Keys
  import opened Domain
  import opened Audit
  import opened Store
  import opened Commands
  import opened Integrity
  import opened Promises
  import opened Writes

  class Service {
    var live: set<BoardId>
    var lanes: map<LaneId, Lane>
    var keyEver: map<LaneId, LaneKey>
    var cards: map<CardId, Card>
    var log: map<CardId, seq<Event>>
    var tags: map<string, string>
    var cardTags: map<CardId, set<string>>
    var nextEvent: EventId

    function State(): Db
      reads this
    {
      Db(live, lanes, keyEver, cards, log, tags, cardTags, nextEvent)
    }

    ghost predicate Valid()
      reads this
    {
      WellFormed(State())
    }

    /** The tables hold what the outcome says, and the caller gets the card or the error. */
    static ghost predicate Answers(outcome: Outcome<Db>, before: Db, after: Db, id: CardId, r: Outcome<Card>) {
      match outcome
      case Success(db) => after == db && id in db.cards && r == Success(db.cards[id])
      case Failure(e) => after == before && r == Failure(e)
    }

    // ---- Rows and events ----

    /** UPDATE of one card row; the unique index may reject it. */
    method UpdateCard(row: Card) returns (ok: bool)
      modifies `cards
      ensures ok == !Clashes(old(cards), row)
      ensures cards == if ok then old(cards)[row.id := row] else old(cards)
    {
      ok := !Clashes(cards, row);
      if ok {
        cards := cards[row.id := row];
      }
    }

    method AppendEvents(id: CardId, now: Time, bodies: seq<Body>)
      requires id in log
      modifies `log, `nextEvent
      ensures log == old(log)[id := old(log)[id] + Stamp(old(nextEvent), now, bodies)]
      ensures nextEvent == old(nextEvent) + |bodies|
    {
      var i := 0;
      while i < |bodies|
        invariant 0 <= i <= |bodies|
        invariant log.Keys == old(log).Keys && log[id] == old(log)[id] + Stamp(old(nextEvent), now, bodies)[..i]
        invariant forall c :: c in log && c != id ==> log[c] == old(log)[c]
        invariant nextEvent == old(nextEvent) + i
      {
        log := log[id := log[id] + [Event(nextEvent, now, bodies[i])]];
        nextEvent := nextEvent + 1;
        i := i + 1;
      }
      assert Stamp(old(nextEvent), now, bodies)[..|bodies|] == Stamp(old(nextEvent), now, bodies);
    }

    /** One saved row with its events, or nothing at all: a rejected row rolls the transaction back. */
    method SaveCard(row: Card, now: Time, bodies: seq<Body>) returns (r: Outcome<Card>)
      requires row.id in log
      modifies `cards, `log, `nextEvent
      ensures Answers(Save(old(State()), row, now, bodies), old(State()), State(), row.id, r)
    {
      var ok := UpdateCard(row);
      if !ok {
        return Failure(DuplicatePosition);
      }
      AppendEvents(row.id, now, bodies);
      r := Success(row);
    }

    /** The end of a command whose specification, `outcome`, is one saved row. */
    method Conclude(row: Card, now: Time, bodies: seq<Body>, ghost outcome: Outcome<Db>) returns (r: Outcome<Card>)
      requires row.id in log && outcome == Save(State(), row, now, bodies)
      requires if outcome.Success? then WellFormed(outcome.value) else Valid()
      modifies `cards, `log, `nextEvent
      ensures Valid()
      ensures Answers(outcome, old(State()), State(), row.id, r)
    {
      r := SaveCard(row, now, bodies);
    }

    // ---- Creation ----

    /** Finds or inserts a tag row per name; names that fold alike count once. */
    method ResolveTagRows(names: seq<string>) returns (seen: set<string>)
      modifies `tags
      ensures (tags, seen) == ResolveTags(old(tags), names)
    {
      seen := {};
      var i := 0;
      while i < |names|
        invariant 0 <= i <= |names|
        invariant (tags, seen) == ResolveTags(old(tags), names[..i])
      {
        TagsResolved(old(tags), names[..i]);
        assert names[..i + 1][..i] == names[..i];
        var folded := Fold(names[i]);
        if folded !in seen {
          seen := seen + {folded};
          if folded !in tags {
            tags := tags[folded := names[i]];
          }
        } else {
          assert seen + {folded} == seen;
        }
        i := i + 1;
      }
      assert names[..i] == names;
    }

    method CheckCreate(x: Ctx, board: BoardId, input: CreateInput) returns (refusal: Option<Error>)
      requires Valid()
      ensures refusal == RefuseCreate(x, State(), board, input)
    {
      if !Visible(x, State(), board) {
        return Some(NotFound);
      }
      var decision := x.policy(board, ToCreate);
      if decision != Allowed {
        return Refusal(decision);
      }
      if !x.isUser(input.reporter) {
        return Some(NotFound);
      }
      if input.assignee.Some? {
        if !x.isAssignable(input.assignee.value, board) {
          return Some(NotFound);
        }
      }
      if input.location.Some? {
        if !x.isLocation(input.location.value) {
          return Some(NotFound);
        }
      }
      return if FirstLane(State(), board).None? then Some(NotFound) else None;
    }

    /** The row, its tags, and the creation event with a full snapshot. */
    method InsertCard(card: Card, names: seq<string>, now: Time) returns (r: Outcome<Card>)
      modifies `cards, `log, `tags, `cardTags, `nextEvent
      ensures ResolveTags(old(tags), names).1 <= ResolveTags(old(tags), names).0.Keys
      ensures var (known, folded) := ResolveTags(old(tags), names);
              Answers(Insert(old(State()), card, now, known, folded), old(State()), State(), card.id, r)
    {
      TagsResolved(tags, names);
      var ok := UpdateCard(card);
      if !ok {
        return Failure(DuplicatePosition);
      }
      var folded := ResolveTagRows(names);
      cardTags := cardTags[card.id := folded];
      log := log[card.id := [Event(nextEvent, now, Created(card, TagNames(tags, folded)))]];
      nextEvent := nextEvent + 1;
      r := Success(card);
    }

    static lemma CreateIsInsert(x: Ctx, db: Db, board: BoardId, input: CreateInput)
      requires WellFormed(db) && RefuseCreate(x, db, board, input).None?
      ensures var outcome := Commands.Create(x, db, board, input);
              var (known, folded) := ResolveTags(db.tags, input.tags);
              && folded <= known.Keys
              && outcome == Insert(db, NewCard(x, db, board, FirstLane(db, board).value, input), x.now, known, folded)
              && (outcome.Success? ==> WellFormed(outcome.value))
    {
      TagsResolved(db.tags, input.tags);
      CreateKeeps(x, db, board, input);
    }

    method ConcludeCreate(card: Card, names: seq<string>, now: Time, ghost outcome: Outcome<Db>) returns (r: Outcome<Card>)
      requires Valid()
      requires var (known, folded) := ResolveTags(tags, names);
               folded <= known.Keys && outcome == Insert(State(), card, now, known, folded)
      requires outcome.Success? ==> WellFormed(outcome.value)
      modifies `cards, `log, `tags, `cardTags, `nextEvent
      ensures Valid()
      ensures Answers(outcome, old(State()), State(), card.id, r)
    {
      r := InsertCard(card, names, now);
    }

    method Create(x: Ctx, board: BoardId, input: CreateInput) returns (r: Outcome<Card>)
      requires Valid()
      modifies this
      ensures Valid()
      ensures Answers(Commands.Create(x, old(State()), board, input), old(State()), State(), NextCardId(old(State())), r)
      ensures r.Success? ==> CreatedOnTop(old(State()), State(), NextCardId(old(State())))
      ensures r.Success? ==> CreatedAsAsked(old(State()), State(), NextCardId(old(State())), board, input, x.now)
      ensures TrailsKept(old(State()), State())
    {
      var refusal := CheckCreate(x, board, input);
      if refusal.Some? {
        return Failure(refusal.value);
      }
      var entry := FirstLane(State(), board).value;
      var top := FirstKey(cards, entry);
      var card := Card(
        NextCardId(State()), board, entry, x.keyGen.between(None, top),
        input.title, input.description, input.priority, input.estimate, input.reporter, input.assignee, input.location,
        None, false, None, None, None, None, None, None, 1, x.now, x.now, None);
      CreateIsInsert(x, State(), board, input);
      r := ConcludeCreate(card, input.tags, x.now, Commands.Create(x, State(), board, input));
      if r.Success? {
        CreatePromise(x, old(State()), board, input);
      }
    }

    // ---- Field edits ----

    method CheckUpdate(x: Ctx, id: CardId, input: UpdateInput) returns (refusal: Option<Error>)
      requires Valid()
      ensures refusal == RefuseUpdate(x, State(), id, input)
    {
      if !Reachable(x, State(), id) {
        return Some(NotFound);
      }
      var card := cards[id];
      if card.archivedAt.Some? {
        return Some(ReadOnlyArchived);
      }
      var decision := x.policy(card.board, ToUpdate);
      if decision != Allowed {
        return Refusal(decision);
      }
      if card.version != input.expectedVersion {
        return Some(Conflicting(StaleVersion));
      }
      // The service interleaves the checks below with the edits; a failing one rolls the edits back.
      if Changes(input.assignee, card.assignee) && input.assignee.value.Some? {
        if !x.isAssignable(input.assignee.value.value, card.board) {
          return Some(NotFound);
        }
      }
      if Changes(input.location, card.location) && input.location.value.Some? {
        if !x.isLocation(input.location.value.value) {
          return Some(NotFound);
        }
      }
      if input.waitingReason.Some? || input.expectedResumeAt.Some? {
        if lanes[card.lane].key != WaitingPartsVendor {
          return Some(Conflicting(OnlyWhileWaiting));
        }
        if input.waitingReason.Some? && input.waitingReason != card.waitingReason {
          if !x.reasonActive(card.board, input.waitingReason.value) {
            return Some(Conflicting(ReasonUnavailable));
          }
        }
      }
      return None;
    }

    /** Each field that differs is set, and adds an event with its old and new value. */
    static method EditTexts(card: Card, input: UpdateInput) returns (next: Card, bodies: seq<Body>)
      ensures Draft(next, bodies) ==
                EditPriority(EditDescription(EditTitle(Draft(card, []), input.title), input.description), input.priority)
    {
      next, bodies := card, [];
      if input.title.Some? && input.title.value != card.title {
        next := next.(title := input.title.value);
        bodies := bodies + [FieldChanged(TitleChange(card.title, input.title.value))];
      }
      if input.description.Some? && input.description.value != card.description {
        next := next.(description := input.description.value);
        bodies := bodies + [FieldChanged(DescriptionChange(card.description, input.description.value))];
      }
      if input.priority.Some? && input.priority.value != card.priority {
        next := next.(priority := input.priority.value);
        bodies := bodies + [FieldChanged(PriorityChange(card.priority, input.priority.value))];
      }
    }

    static method EditPlain(card: Card, input: UpdateInput) returns (next: Card, bodies: seq<Body>)
      ensures Draft(next, bodies) == EditFields(card, input)
    {
      next, bodies := EditTexts(card, input);
      if input.estimate.Some? && input.estimate.value != card.estimate {
        next := next.(estimate := input.estimate.value);
        bodies := bodies + [FieldChanged(EstimateChange(card.estimate, input.estimate.value))];
      }
      if input.assignee.Some? && input.assignee.value != card.assignee {
        next := next.(assignee := input.assignee.value);
        bodies := bodies + [FieldChanged(AssigneeChange(card.assignee, input.assignee.value))];
      }
      if input.location.Some? && input.location.value != card.location {
        next := next.(location := input.location.value);
        bodies := bodies + [FieldChanged(LocationChange(card.location, input.location.value))];
      }
    }

    static method EditWaiting(draft: Draft, input: UpdateInput) returns (next: Card, bodies: seq<Body>)
      ensures Draft(next, bodies) == EditResume(EditReason(draft, input.waitingReason), input.expectedResumeAt)
    {
      next, bodies := draft.card, draft.bodies;
      if input.waitingReason.Some? && input.waitingReason != next.waitingReason {
        bodies := bodies + [FieldChanged(ReasonChange(next.waitingReason, input.waitingReason))];
        next := next.(waitingReason := input.waitingReason);
      }
      if input.expectedResumeAt.Some? && input.expectedResumeAt != next.expectedResumeAt {
        bodies := bodies + [FieldChanged(ResumeChange(next.expectedResumeAt, input.expectedResumeAt))];
        next := next.(expectedResumeAt := input.expectedResumeAt, resumeAlertedAt := None);
      }
    }

    /** All edits, and the tag rows they need. */
    method BuildUpdate(id: CardId, input: UpdateInput) returns (next: Card, bodies: seq<Body>, folded: set<string>)
      requires Valid() && id in cards
      modifies `tags
      ensures (tags, folded) == WantedTags(old(State()), id, input.tags)
      ensures Draft(next, bodies) == EditAll(old(State()), id, input)
    {
      next, bodies := EditPlain(cards[id], input);
      folded := cardTags[id];
      if input.tags.Some? {
        var from := TagNames(tags, cardTags[id]);
        TagsResolved(tags, input.tags.value);
        folded := ResolveTagRows(input.tags.value);
        if folded != cardTags[id] {
          bodies := bodies + [FieldChanged(TagsChange(from, TagNames(tags, folded)))];
        }
      }
      next, bodies := EditWaiting(Draft(next, bodies), input);
    }

    static lemma UpdateIsSave(x: Ctx, db: Db, id: CardId, input: UpdateInput)
      requires WellFormed(db) && RefuseUpdate(x, db, id, input).None?
      ensures var outcome := Commands.Update(x, db, id, input);
              var (known, folded) := WantedTags(db, id, input.tags);
              var draft := EditAll(db, id, input);
              && draft.card.id == id && id in db.log
              && outcome == (if draft.bodies == [] then Success(db.(tags := known))
                             else Save(db.(tags := known, cardTags := db.cardTags[id := folded]),
                                       Edited(draft.card, x.now), x.now, draft.bodies))
              && (outcome.Success? ==> WellFormed(outcome.value))
              && outcome != Failure(DuplicatePosition)
    {
      UpdateKeeps(x, db, id, input);
    }

    /** A no-change edit writes nothing but the tag rows it may have created. */
    method WriteUpdate(x: Ctx, id: CardId, input: UpdateInput) returns (r: Outcome<Card>)
      requires Valid() && RefuseUpdate(x, State(), id, input).None?
      modifies this
      ensures Valid()
      ensures Answers(Commands.Update(x, old(State()), id, input), old(State()), State(), id, r)
    {
      UpdateIsSave(x, State(), id, input);
      var next, bodies, folded := BuildUpdate(id, input);
      if bodies == [] {
        return Success(cards[id]);
      }
      r := WriteDraft(next, bodies, folded, x.now, Commands.Update(x, old(State()), id, input));
    }

    method Update(x: Ctx, id: CardId, input: UpdateInput) returns (r: Outcome<Card>)
      requires Valid()
      modifies this
      ensures Valid()
      ensures Answers(Commands.Update(x, old(State()), id, input), old(State()), State(), id, r)
      ensures r.Success? ==> StaysPut(old(State()), State(), id)
      ensures r.Success? ==> EditedAsAsked(old(State()), State(), id, input, x.now)
      ensures TrailsKept(old(State()), State())
    {
      var refusal := CheckUpdate(x, id, input);
      if refusal.Some? {
        return Failure(refusal.value);
      }
      r := WriteUpdate(x, id, input);
      if r.Success? {
        UpdatePromise(x, old(State()), id, input);
      }
    }

    method WriteDraft(next: Card, bodies: seq<Body>, folded: set<string>, now: Time, ghost outcome: Outcome<Db>)
      returns (r: Outcome<Card>)
      requires next.id in log && outcome.Success? && WellFormed(outcome.value)
      requires outcome == Save(State().(cardTags := cardTags[next.id := folded]), Edited(next, now), now, bodies)
      modifies `cards, `log, `cardTags, `nextEvent
      ensures Valid() && outcome == Success(State())
      ensures next.id in cards && r == Success(cards[next.id])
    {
      cardTags := cardTags[next.id := folded];
      r := Conclude(next.(version := next.version + 1, updatedAt := now), now, bodies, outcome);
    }

    // ---- Moves ----

    /** The checks of a move, in their order. */
    method CheckMove(x: Ctx, id: CardId, input: MoveInput) returns (refusal: Option<Error>)
      requires Valid()
      ensures refusal == RefuseMove(x, State(), id, input)
    {
      if !Reachable(x, State(), id) {
        return Some(NotFound);
      }
      var card := cards[id];
      if card.archivedAt.Some? {
        return Some(ReadOnlyArchived);
      }
      var found := LaneByKey(State(), card.board, input.to);
      if found.None? {
        return Some(NotFound);
      }
      var from, lane := lanes[card.lane].key, found.value;
      var reorder := lane == card.lane;
      var decision := x.policy(card.board, if reorder then ToReorder(input.to) else ToMove(from, input.to));
      if decision != Allowed {
        return Refusal(decision);
      }
      if !reorder && from == Done {
        decision := x.policy(card.board, ToReopen);
        if decision != Allowed {
          return Refusal(decision);
        }
      }
      if card.version != input.expectedVersion {
        return Some(Conflicting(StaleVersion));
      }
      if !reorder && input.to == WaitingPartsVendor {
        if input.waitingReason.None? || input.expectedResumeAt.None? {
          return Some(InvalidInput);
        }
        if !x.reasonActive(card.board, input.waitingReason.value) {
          return Some(Conflicting(ReasonUnavailable));
        }
      }
      refusal := CheckNeighbors(id, lane, input);
    }

    method CheckNeighbors(id: CardId, lane: LaneId, input: MoveInput) returns (refusal: Option<Error>)
      ensures refusal ==
        if StaleNeighbor(State(), id, lane, input.prev) || StaleNeighbor(State(), id, lane, input.next)
           || !Gap(NeighborKey(State(), input.prev), NeighborKey(State(), input.next))
           || !Gap(PositionBefore(cards, lane, NeighborKey(State(), input.next), id), NeighborKey(State(), input.next))
        then Some(Conflicting(StaleNeighbors)) else None
    {
      if StaleNeighbor(State(), id, lane, input.prev) || StaleNeighbor(State(), id, lane, input.next) {
        return Some(Conflicting(StaleNeighbors));
      }
      var prev, next := NeighborKey(State(), input.prev), NeighborKey(State(), input.next);
      if !Gap(prev, next) {
        return Some(Conflicting(StaleNeighbors));
      }
      var actualPrev := PositionBefore(cards, lane, next, id);
      return if Gap(actualPrev, next) then None else Some(Conflicting(StaleNeighbors));
    }

    /** The row after the move, field by field. */
    static method Relocate(card: Card, from: LaneKey, lane: LaneId, input: MoveInput, position: Key, now: Time)
      returns (updated: Card)
      ensures updated == Relocated(card, from, lane, input.to, position, input.waitingReason, input.expectedResumeAt, now)
    {
      updated := card.(lane := lane, position := position, version := card.version + 1, updatedAt := now);
      if lane != card.lane {
        if input.to == WaitingPartsVendor {
          updated := updated.(waitingReason := input.waitingReason, expectedResumeAt := input.expectedResumeAt,
                              resumeAlertedAt := None);
        }
        if from == WaitingPartsVendor {
          updated := updated.(waitingReason := None, expectedResumeAt := None, resumeAlertedAt := None);
        }
        if input.to == InProgress && card.workStartedAt.None? {
          updated := updated.(workStartedAt := Some(now));
        }
        if input.to == Done {
          updated := updated.(resolution := Some(Completed));
        }
        if from == Done {
          updated := updated.(resolution := None);
        }
      }
    }

    method DescribeMove(id: CardId, from: LaneKey, lane: LaneId, input: MoveInput) returns (body: Body)
      requires Valid() && id in cards && LaneByKey(State(), cards[id].board, input.to) == Some(lane)
      requires from == KeyOf(State(), cards[id])
      ensures body == MovedBody(State(), id, input)
    {
      if lane == cards[id].lane {
        return Reordered(input.to, input.prev, input.next);
      }
      var exceeded := false;
      if lanes[lane].wipLimit.Some? {
        exceeded := ActiveCount(State(), lane) + 1 > lanes[lane].wipLimit.value;
      }
      body := StatusChanged(from, input.to, exceeded, from == WaitingPartsVendor);
    }

    method BuildMove(x: Ctx, id: CardId, input: MoveInput) returns (updated: Card, body: Body)
      requires Valid() && id in cards && LaneByKey(State(), cards[id].board, input.to).Some?
      ensures updated == MovedRow(x, State(), id, input) && body == MovedBody(State(), id, input)
    {
      var card := cards[id];
      var from, lane := lanes[card.lane].key, LaneByKey(State(), card.board, input.to).value;
      var next := NeighborKey(State(), input.next);
      var position := x.keyGen.between(PositionBefore(cards, lane, next, id), next);
      updated := Relocate(card, from, lane, input, position, x.now);
      body := DescribeMove(id, from, lane, input);
    }

    static lemma MoveIsSave(x: Ctx, db: Db, id: CardId, input: MoveInput)
      requires WellFormed(db) && RefuseMove(x, db, id, input).None?
      ensures var outcome := Commands.Move(x, db, id, input);
              && MovedRow(x, db, id, input).id == id && id in db.log
              && outcome == Save(db, MovedRow(x, db, id, input), x.now, [MovedBody(db, id, input)])
              && (outcome.Success? ==> WellFormed(outcome.value))
    {
      MoveKeeps(x, db, id, input);
    }

    method Move(x: Ctx, id: CardId, input: MoveInput) returns (r: Outcome<Card>)
      requires Valid()
      modifies this
      ensures Valid()
      ensures Answers(Commands.Move(x, old(State()), id, input), old(State()), State(), id, r)
      ensures r.Success? ==> Advanced(old(State()), State(), id, input.expectedVersion, input.to)
      ensures r.Success? ==> MovedTo(old(State()), State(), id, input)
      ensures r.Success? ==> MovedAsAsked(old(State()), State(), id, input, x.now)
      ensures TrailsKept(old(State()), State())
    {
      var refusal := CheckMove(x, id, input);
      if refusal.Some? {
        return Failure(refusal.value);
      }
      var updated, body := BuildMove(x, id, input);
      MoveIsSave(x, State(), id, input);
      r := Conclude(updated, x.now, [body], Commands.Move(x, State(), id, input));
      if r.Success? {
        MoveDelivers(x, old(State()), id, input);
      }
    }

    // ---- Cancel and reopen ----

    method CheckCancel(x: Ctx, id: CardId, resolution: Resolution, version: nat) returns (refusal: Option<Error>)
      requires Valid()
      ensures refusal == RefuseCancel(x, State(), id, resolution, version)
    {
      if resolution == Completed {
        return Some(InvalidInput);
      }
      if !Reachable(x, State(), id) {
        return Some(NotFound);
      }
      var card := cards[id];
      if card.archivedAt.Some? {
        return Some(ReadOnlyArchived);
      }
      if lanes[card.lane].key == Done {
        return Some(Conflicting(AlreadyTerminal));
      }
      var decision := x.policy(card.board, ToCancel);
      if decision != Allowed {
        return Refusal(decision);
      }
      if card.version != version {
        return Some(Conflicting(StaleVersion));
      }
      return if LaneByKey(State(), card.board, Done).None? then Some(Conflicting(NoDoneLane)) else None;
    }

    static lemma CancelIsSave(x: Ctx, db: Db, id: CardId, resolution: Resolution, version: nat)
      requires WellFormed(db) && RefuseCancel(x, db, id, resolution, version).None?
      ensures var outcome := Commands.Cancel(x, db, id, resolution, version);
              var row := CancelledRow(x, db, id, resolution, LaneByKey(db, db.cards[id].board, Done).value);
              && row.id == id && id in db.log
              && outcome == Save(db, row, x.now, [CardCancelled(CancellationOf(db, db.cards[id], resolution))])
              && (outcome.Success? ==> WellFormed(outcome.value))
    {
      CancelKeeps(x, db, id, resolution, version);
    }

    method BuildCancel(x: Ctx, id: CardId, resolution: Resolution) returns (updated: Card, body: Body)
      requires Valid() && id in cards && LaneByKey(State(), cards[id].board, Done).Some?
      ensures updated == CancelledRow(x, State(), id, resolution, LaneByKey(State(), cards[id].board, Done).value)
      ensures body == CardCancelled(CancellationOf(State(), cards[id], resolution))
    {
      var card := cards[id];
      var done := LaneByKey(State(), card.board, Done).value;
      var bottom := LastKey(cards, done);
      updated := card.(
        lane := done, position := x.keyGen.between(bottom, None), resolution := Some(resolution),
        waitingReason := None, expectedResumeAt := None, resumeAlertedAt := None,
        version := card.version + 1, updatedAt := x.now);
      // The waiting state is recorded before it is lost, when there is one.
      var waiting := None;
      if card.waitingReason.Some? {
        waiting := Some(Waiting(card.waitingReason.value, card.expectedResumeAt));
      }
      body := CardCancelled(Cancellation(resolution, lanes[card.lane].key, waiting));
    }

    method Cancel(x: Ctx, id: CardId, resolution: Resolution, version: nat) returns (r: Outcome<Card>)
      requires Valid()
      modifies this
      ensures Valid()
      ensures Answers(Commands.Cancel(x, old(State()), id, resolution, version), old(State()), State(), id, r)
      ensures r.Success? ==> Advanced(old(State()), State(), id, version, Done) && LandedLast(old(State()), State(), id)
      ensures r.Success? ==> CancelledAsAsked(old(State()), State(), id, resolution, x.now)
      ensures TrailsKept(old(State()), State())
    {
      var refusal := CheckCancel(x, id, resolution, version);
      if refusal.Some? {
        return Failure(refusal.value);
      }
      var updated, body := BuildCancel(x, id, resolution);
      CancelIsSave(x, State(), id, resolution, version);
      r := Conclude(updated, x.now, [body], Commands.Cancel(x, State(), id, resolution, version));
      if r.Success? {
        CancelDelivers(x, old(State()), id, resolution, version);
      }
    }

    method CheckReopen(x: Ctx, id: CardId, version: nat) returns (refusal: Option<Error>)
      requires Valid()
      ensures refusal == RefuseReopen(x, State(), id, version)
    {
      if !Reachable(x, State(), id) {
        return Some(NotFound);
      }
      var card := cards[id];
      if lanes[card.lane].key != Done {
        return Some(IllegalTransition);
      }
      var decision := x.policy(card.board, ToReopen);
      if decision != Allowed {
        return Refusal(decision);
      }
      if card.version != version {
        return Some(Conflicting(StaleVersion));
      }
      return if ReopenTarget(State(), card).None? then Some(NotFound) else None;
    }

    /** What the newest cancellation says, if the card is cancelled and the record suffices to restore it. */
    method ReadCancellation(card: Card) returns (record: Option<Cancellation>)
      requires card.id in log
      ensures record == Restorable(State(), card)
    {
      record := None;
      var wasCancelled := card.resolution.Some? && card.resolution != Some(Completed);
      if wasCancelled {
        record := LastCancel(log[card.id]);
      }
      if record.Some? && record.value.priorLane == WaitingPartsVendor && record.value.waiting.None? {
        record := None;
      }
    }

    method FindTarget(card: Card, record: Option<Cancellation>) returns (restored: Option<LaneId>, target: Option<LaneId>)
      requires Valid() && card.id in log && record == Restorable(State(), card)
      ensures restored == RestoredLane(State(), card) && target == ReopenTarget(State(), card)
      ensures restored.Some? ==> record.Some? && target == restored
    {
      restored := None;
      if record.Some? {
        restored := LaneByKey(State(), card.board, record.value.priorLane);
      }
      target := restored;
      if target.None? {
        target := LaneByKey(State(), card.board, Ready);
      }
      if target.None? {
        target := FirstLane(State(), card.board);
      }
    }

    method BuildReopen(x: Ctx, id: CardId) returns (updated: Card)
      requires Valid() && id in cards && ReopenTarget(State(), cards[id]).Some?
      ensures updated == ReopenedRow(x, State(), id)
    {
      var card := cards[id];
      var record := ReadCancellation(card);
      var restored, target := FindTarget(card, record);
      var bottom := LastKey(cards, target.value);
      var placed := card.(lane := target.value, position := x.keyGen.between(bottom, None), version := card.version + 1,
                          updatedAt := x.now);
      var waits := restored.Some? && lanes[target.value].key == WaitingPartsVendor;
      var waiting := None;
      if waits {
        waiting := record.value.waiting;
      }
      updated := ResetFields(placed, restored.Some?, waits, waiting);
    }

    /** A restored card keeps its work start and, in the waiting lane, gets back what it waited for. */
    static method ResetFields(placed: Card, restored: bool, waits: bool, waiting: Option<Waiting>) returns (updated: Card)
      requires waits ==> restored
      ensures updated == placed.(
                resolution := None, archivedAt := None, workStartedAt := if restored then placed.workStartedAt else None,
                waitingReason := if !waits then placed.waitingReason
                                 else if waiting.Some? then Some(waiting.value.reason) else None,
                expectedResumeAt := if !waits then placed.expectedResumeAt
                                    else if waiting.Some? then waiting.value.resumeAt else None,
                resumeAlertedAt := if waits then None else placed.resumeAlertedAt)
    {
      updated := placed.(resolution := None, archivedAt := None);
      if !restored {
        updated := updated.(workStartedAt := None);
      } else if waits {
        updated := updated.(waitingReason := None, expectedResumeAt := None, resumeAlertedAt := None);
        if waiting.Some? {
          updated := updated.(waitingReason := Some(waiting.value.reason), expectedResumeAt := waiting.value.resumeAt);
        }
      }
    }

    static lemma ReopenIsSave(x: Ctx, db: Db, id: CardId, version: nat)
      requires WellFormed(db) && RefuseReopen(x, db, id, version).None?
      ensures var outcome, row := Commands.Reopen(x, db, id, version), ReopenedRow(x, db, id);
              && row.id == id && row.lane in db.lanes && id in db.log
              && outcome == Save(db, row, x.now, [Reopened(db.lanes[row.lane].key)])
              && (outcome.Success? ==> WellFormed(outcome.value))
    {
      ReopenKeeps(x, db, id, version);
    }

    method Reopen(x: Ctx, id: CardId, version: nat) returns (r: Outcome<Card>)
      requires Valid()
      modifies this
      ensures Valid()
      ensures Answers(Commands.Reopen(x, old(State()), id, version), old(State()), State(), id, r)
      ensures r.Success? ==> r.value.lane in lanes && Advanced(old(State()), State(), id, version, lanes[r.value.lane].key)
      ensures r.Success? ==> LandedLast(old(State()), State(), id)
      ensures r.Success? ==> ReopenedAsAsked(old(State()), State(), id, x.now)
      ensures TrailsKept(old(State()), State())
    {
      var refusal := CheckReopen(x, id, version);
      if refusal.Some? {
        return Failure(refusal.value);
      }
      var updated := BuildReopen(x, id);
      ReopenIsSave(x, State(), id, version);
      r := Conclude(updated, x.now, [Reopened(lanes[updated.lane].key)], Commands.Reopen(x, State(), id, version));
      if r.Success? {
        ReopenDelivers(x, old(State()), id, version);
      }
    }

    // ---- Archival ----

    method CheckArchive(x: Ctx, id: CardId, version: nat) returns (refusal: Option<Error>)
      requires Valid()
      ensures refusal == RefuseArchive(x, State(), id, version)
    {
      if !Reachable(x, State(), id) {
        return Some(NotFound);
      }
      var card := cards[id];
      if card.archivedAt.Some? {
        return Some(ReadOnlyArchived);
      }
      if lanes[card.lane].key != Done {
        return Some(Conflicting(NotInDone));
      }
      var decision := x.policy(card.board, ToArchive);
      if decision != Allowed {
        return Refusal(decision);
      }
      return if card.version != version then Some(Conflicting(StaleVersion)) else None;
    }

    static lemma ArchiveIsSave(x: Ctx, db: Db, id: CardId, version: nat)
      requires WellFormed(db) && RefuseArchive(x, db, id, version).None?
      ensures var outcome := Commands.Archive(x, db, id, version);
              && db.cards[id].id == id && id in db.log
              && outcome == Save(db, ArchivedRow(db.cards[id], x.now), x.now, [CardArchived])
              && (outcome.Success? ==> WellFormed(outcome.value))
    {
      ArchiveKeeps(x, db, id, version);
    }

    method Archive(x: Ctx, id: CardId, version: nat) returns (r: Outcome<Card>)
      requires Valid()
      modifies this
      ensures Valid()
      ensures Answers(Commands.Archive(x, old(State()), id, version), old(State()), State(), id, r)
      ensures r.Success? ==> StaysPut(old(State()), State(), id)
      ensures r.Success? ==> ArchivedAt(old(State()), State(), id, x.now)
      ensures TrailsKept(old(State()), State())
    {
      var refusal := CheckArchive(x, id, version);
      if refusal.Some? {
        return Failure(refusal.value);
      }
      ArchiveIsSave(x, State(), id, version);
      r := Conclude(ArchivedRow(cards[id], x.now), x.now, [CardArchived], Commands.Archive(x, State(), id, version));
      if r.Success? {
        ArchivePromise(x, old(State()), id, version);
      }
    }

    // ---- Blocked flag, notes, discard ----

    method CheckSetBlocked(x: Ctx, id: CardId, reason: Option<string>, version: nat) returns (refusal: Option<Error>)
      requires Valid()
      ensures refusal == RefuseSetBlocked(x, State(), id, reason, version)
    {
      if !Reachable(x, State(), id) {
        return Some(NotFound);
      }
      var card := cards[id];
      if card.archivedAt.Some? {
        return Some(ReadOnlyArchived);
      }
      var decision := x.policy(card.board, if reason.Some? then ToBlock else ToUnblock);
      if decision != Allowed {
        return Refusal(decision);
      }
      if card.version != version {
        return Some(Conflicting(StaleVersion));
      }
      return if card.blocked == reason.Some? then Some(Conflicting(BlockStateUnchanged)) else None;
    }

    static lemma SetBlockedIsSave(x: Ctx, db: Db, id: CardId, reason: Option<string>, version: nat)
      requires WellFormed(db) && RefuseSetBlocked(x, db, id, reason, version).None?
      ensures var outcome := Commands.SetBlocked(x, db, id, reason, version);
              && db.cards[id].id == id && id in db.log
              && outcome == Save(db, BlockedRow(db.cards[id], reason, x.now), x.now,
                                 [if reason.Some? then BlockRaised(reason.value) else BlockCleared])
              && (outcome.Success? ==> WellFormed(outcome.value))
    {
      SetBlockedKeeps(x, db, id, reason, version);
    }

    static method BuildSetBlocked(card: Card, reason: Option<string>, now: Time) returns (updated: Card, body: Body)
      ensures updated == BlockedRow(card, reason, now)
      ensures body == if reason.Some? then BlockRaised(reason.value) else BlockCleared
    {
      updated := card.(blocked := reason.Some?, blockedReason := reason, blockedAt := None,
                       version := card.version + 1, updatedAt := now);
      body := BlockCleared;
      if reason.Some? {
        updated := updated.(blockedAt := Some(now));
        body := BlockRaised(reason.value);
      }
    }

    method SetBlocked(x: Ctx, id: CardId, reason: Option<string>, version: nat) returns (r: Outcome<Card>)
      requires Valid()
      modifies this
      ensures Valid()
      ensures Answers(Commands.SetBlocked(x, old(State()), id, reason, version), old(State()), State(), id, r)
      ensures r.Success? ==> StaysPut(old(State()), State(), id)
      ensures r.Success? ==> BlockedAsAsked(old(State()), State(), id, reason, x.now)
      ensures TrailsKept(old(State()), State())
    {
      var refusal := CheckSetBlocked(x, id, reason, version);
      if refusal.Some? {
        return Failure(refusal.value);
      }
      var updated, body := BuildSetBlocked(cards[id], reason, x.now);
      SetBlockedIsSave(x, State(), id, reason, version);
      r := Conclude(updated, x.now, [body], Commands.SetBlocked(x, State(), id, reason, version));
      if r.Success? {
        SetBlockedPromise(x, old(State()), id, reason, version);
      }
    }

    method Discard(x: Ctx, id: CardId, version: nat) returns (r: Result<(), Error>)
      requires Valid()
      modifies this
      ensures Valid()
      ensures match Commands.Discard(x, old(State()), id, version)
              case Success(db) => State() == db && r == Success(())
              case Failure(e) => State() == old(State()) && r == Failure(e)
      ensures r.Success? ==> DiscardedFrom(old(State()), State(), id)
      ensures TrailsKept(old(State()), State())
    {
      if !Reachable(x, State(), id) {
        return Failure(NotFound);
      }
      var card := cards[id];
      var decision := x.policy(card.board, ToDelete(card.reporter));
      if decision != Allowed {
        return Failure(Refusal(decision).value);
      }
      if card.version != version {
        return Failure(Conflicting(StaleVersion));
      }
      if FirstLane(State(), card.board) != Some(card.lane) {
        return Failure(Conflicting(NotInFirstColumn));
      }
      DiscardKeeps(x, State(), id, version);
      log := log - {id};
      cardTags := cardTags - {id};
      cards := cards - {id};
      r := Success(());
      if r.Success? {
        DiscardPromise(x, old(State()), id, version);
      }
    }
  }
}
