/** What a successful command stores, told from the old tables and the request alone. */
module Writes {
  import opened Wrappers
  import opened Domain
  import opened Audit
  import opened Store
  import opened Commands
  import opened Integrity
  import opened Trails

  /** Of all tables only the card's row and its trail are written. */
  ghost predicate OnlyWrites(before: Db, after: Db, id: CardId) {
    && id in before.cards && id in after.cards && id in after.log
    && after == before.(cards := before.cards[id := after.cards[id]], log := before.log[id := after.log[id]],
                        nextEvent := after.nextEvent)
  }

  /** The trail has got one more event. */
  ghost predicate Told(before: Db, after: Db, id: CardId, now: Time, body: Body) {
    && id in before.log && id in after.log
    && after.log[id] == before.log[id] + [Event(before.nextEvent, now, body)]
    && after.nextEvent == before.nextEvent + 1
  }

  lemma SavedOne(db: Db, row: Card, now: Time, body: Body)
    requires WellFormed(db) && row.id in db.cards && Save(db, row, now, [body]).Success?
    ensures var db' := Save(db, row, now, [body]).value;
            OnlyWrites(db, db', row.id) && Told(db, db', row.id, now, body) && db'.cards[row.id] == row
  {
    assert Stamp(db.nextEvent, now, [body]) == [Event(db.nextEvent, now, body)];
  }

  /** The row states its next version and when it got it. */
  predicate Bumped(a: Card, b: Card, now: Time) {
    b.version == a.version + 1 && b.updatedAt == now
  }

  // ---- Creation ----

  function FoldedAll(names: seq<string>): set<string> {
    set i | 0 <= i < |names| :: Fold(names[i])
  }

  /** The first name in the list that folds to `folded` is spelled like this. */
  ghost predicate FirstSpelled(names: seq<string>, folded: string, spelling: string) {
    exists i :: 0 <= i < |names| && names[i] == spelling && Fold(names[i]) == folded
                && forall j :: 0 <= j < i ==> Fold(names[j]) != folded
  }

  /** Known tag names keep their spelling, new ones are spelled as they came first. */
  ghost predicate Spelled(tags: map<string, string>, tags': map<string, string>, names: seq<string>) {
    && tags'.Keys == tags.Keys + FoldedAll(names)
    && (forall f :: f in tags ==> tags'[f] == tags[f])
    && (forall f :: f in tags' && f !in tags ==> FirstSpelled(names, f, tags'[f]))
  }

  lemma {:induction false} TagsSpelled(tags: map<string, string>, names: seq<string>)
    ensures ResolveTags(tags, names).1 == FoldedAll(names) && Spelled(tags, ResolveTags(tags, names).0, names)
    decreases |names|
  {
    if names != [] {
      var front, name := names[..|names| - 1], names[|names| - 1];
      TagsSpelled(tags, front);
      FoldedOneMore(front, name);
      assert front + [name] == names;
      SpelledOneMore(tags, ResolveTags(tags, front).0, front, name);
    }
  }

  lemma FoldedOneMore(front: seq<string>, name: string)
    ensures FoldedAll(front + [name]) == FoldedAll(front) + {Fold(name)}
  {
    assert forall i :: 0 <= i < |front| ==> (front + [name])[i] == front[i];
    assert (front + [name])[|front|] == name;
  }

  lemma StillFirst(front: seq<string>, name: string, folded: string, spelling: string)
    requires FirstSpelled(front, folded, spelling)
    ensures FirstSpelled(front + [name], folded, spelling)
  {
    var i :| 0 <= i < |front| && front[i] == spelling && Fold(front[i]) == folded
             && forall j :: 0 <= j < i ==> Fold(front[j]) != folded;
    assert (front + [name])[i] == spelling;
  }

  lemma NowFirst(front: seq<string>, name: string)
    requires Fold(name) !in FoldedAll(front)
    ensures FirstSpelled(front + [name], Fold(name), name)
  {
    assert (front + [name])[|front|] == name;
    assert forall j :: 0 <= j < |front| ==> (front + [name])[j] == front[j] && Fold(front[j]) in FoldedAll(front);
  }

  lemma SpelledOneMore(tags: map<string, string>, known: map<string, string>, front: seq<string>, name: string)
    requires Spelled(tags, known, front)
    ensures Spelled(tags, if Fold(name) in known then known else known[Fold(name) := name], front + [name])
  {
    FoldedOneMore(front, name);
    var known' := if Fold(name) in known then known else known[Fold(name) := name];
    forall f | f in known' && f !in tags
      ensures FirstSpelled(front + [name], f, known'[f])
    {
      if f in known { StillFirst(front, name, f, known[f]); } else { NowFirst(front, name); }
    }
  }

  /** The contents of the new row are those of the request. */
  predicate HoldsRequest(card: Card, input: CreateInput) {
    && card.title == input.title && card.description == input.description && card.priority == input.priority
    && card.estimate == input.estimate && card.reporter == input.reporter
    && card.assignee == input.assignee && card.location == input.location
  }

  /** Nothing has happened to the row yet. */
  predicate IsBlank(card: Card, now: Time) {
    && card.resolution.None? && !card.blocked && card.blockedReason.None? && card.blockedAt.None?
    && card.waitingReason.None? && card.expectedResumeAt.None? && card.resumeAlertedAt.None? && card.workStartedAt.None?
    && card.archivedAt.None? && card.version == 1 && card.createdAt == now && card.updatedAt == now
  }

  ghost predicate CreatedAsAsked(before: Db, after: Db, id: CardId, board: BoardId, input: CreateInput, now: Time) {
    && id !in before.cards && id in after.cards && id in after.log && id in after.cardTags
    && var card := after.cards[id];
    && card.id == id && card.board == board && Leftmost(before, board, card.lane)
    && HoldsRequest(card, input) && IsBlank(card, now)
    && after.cardTags[id] == FoldedAll(input.tags) && Spelled(before.tags, after.tags, input.tags)
    && after.cardTags[id] <= after.tags.Keys
    && after.log[id] == [Event(before.nextEvent, now, Created(card, TagNames(after.tags, after.cardTags[id])))]
    && after == before.(cards := before.cards[id := card], log := before.log[id := after.log[id]], tags := after.tags,
                        cardTags := before.cardTags[id := after.cardTags[id]], nextEvent := before.nextEvent + 1)
  }

  lemma CreateStores(x: Ctx, db: Db, board: BoardId, input: CreateInput)
    requires WellFormed(db) && Create(x, db, board, input).Success?
    ensures CreatedAsAsked(db, Create(x, db, board, input).value, NextCardId(db), board, input, x.now)
  {
    TagsResolved(db.tags, input.tags);
    var (tags, folded) := ResolveTags(db.tags, input.tags);
    var card := NewCard(x, db, board, FirstLane(db, board).value, input);
    CreationStored(db, Create(x, db, board, input).value, card, board, input, x.now, tags, folded);
  }

  lemma CreationStored(db: Db, db': Db, card: Card, board: BoardId, input: CreateInput, now: Time,
                       tags: map<string, string>, folded: set<string>)
    requires ResolveTags(db.tags, input.tags) == (tags, folded) && folded <= tags.Keys
    requires Insert(db, card, now, tags, folded) == Success(db')
    requires card.id !in db.cards && card.board == board && Leftmost(db, board, card.lane)
    requires HoldsRequest(card, input) && IsBlank(card, now)
    ensures CreatedAsAsked(db, db', card.id, board, input, now)
  {
    TagsSpelled(db.tags, input.tags);
  }

  // ---- Moves ----

  /** Nothing but place, progress and version has changed. */
  predicate SameContents(a: Card, b: Card) {
    b == a.(lane := b.lane, position := b.position, version := b.version, updatedAt := b.updatedAt,
            waitingReason := b.waitingReason, expectedResumeAt := b.expectedResumeAt, resumeAlertedAt := b.resumeAlertedAt,
            workStartedAt := b.workStartedAt, resolution := b.resolution)
  }

  /** Work starts when the card first enters the lane of work, and never again. */
  predicate StartsOnce(a: Card, b: Card, to: LaneKey, now: Time) {
    if to == InProgress && a.workStartedAt.None? then b.workStartedAt == Some(now) else b.workStartedAt == a.workStartedAt
  }

  /** Whoever enters the waiting lane waits as asked, whoever leaves it waits for nothing. */
  predicate WaitsAsAsked(a: Card, b: Card, from: LaneKey, input: MoveInput) {
    if input.to == WaitingPartsVendor then
      && input.waitingReason.Some? && input.expectedResumeAt.Some?
      && b.waitingReason == input.waitingReason && b.expectedResumeAt == input.expectedResumeAt && b.resumeAlertedAt.None?
    else if from == WaitingPartsVendor then
      b.waitingReason.None? && b.expectedResumeAt.None? && b.resumeAlertedAt.None?
    else SameWaiting(a, b)
  }

  predicate ResolvedByLane(a: Card, b: Card, from: LaneKey, to: LaneKey) {
    b.resolution == if to == Done then Some(Completed) else if from == Done then None else a.resolution
  }

  ghost predicate MovedAsAsked(before: Db, after: Db, id: CardId, input: MoveInput, now: Time) {
    && OnlyWrites(before, after, id)
    && var a, b := before.cards[id], after.cards[id];
    && a.lane in before.lanes && IsColumn(before, a.board, input.to, b.lane)
    && SameContents(a, b) && Bumped(a, b, now)
    && var from := before.lanes[a.lane].key;
    if from == input.to then
      && b.lane == a.lane && b.workStartedAt == a.workStartedAt && b.resolution == a.resolution && SameWaiting(a, b)
      && Told(before, after, id, now, Reordered(input.to, input.prev, input.next))
    else
      && StartsOnce(a, b, input.to, now) && WaitsAsAsked(a, b, from, input) && ResolvedByLane(a, b, from, input.to)
      // The mark says whether the lane is over its limit with the card in it.
      && Told(before, after, id, now, StatusChanged(from, input.to, Breached(after, b.lane), from == WaitingPartsVendor))
  }

  lemma MovedRowIsAsAsked(x: Ctx, db: Db, id: CardId, input: MoveInput)
    requires WellFormed(db) && RefuseMove(x, db, id, input).None?
    ensures var a, b := db.cards[id], MovedRow(x, db, id, input);
            var from := KeyOf(db, a);
            && b.id == id && IsColumn(db, a.board, input.to, b.lane) && SameContents(a, b) && Bumped(a, b, x.now)
            && (b.lane == a.lane <==> from == input.to)
            && if b.lane == a.lane then
                 b.workStartedAt == a.workStartedAt && b.resolution == a.resolution && SameWaiting(a, b)
               else StartsOnce(a, b, input.to, x.now) && WaitsAsAsked(a, b, from, input) && ResolvedByLane(a, b, from, input.to)
  {
  }

  /** A live card that comes in is one more. */
  lemma OneMoreIn(db: Db, db': Db, row: Card)
    requires CardsPlaced(db.lanes, db.cards) && row.id in db.cards && db'.cards == db.cards[row.id := row]
    requires row.lane != db.cards[row.id].lane && row.archivedAt.None?
    ensures ActiveCount(db', row.lane) == ActiveCount(db, row.lane) + 1
  {
    assert ActiveIn(db'.cards, row.lane) == ActiveIn(db.cards, row.lane) + {row.id};
  }

  lemma MoveStores(x: Ctx, db: Db, id: CardId, input: MoveInput)
    requires WellFormed(db) && Move(x, db, id, input).Success?
    ensures MovedAsAsked(db, Move(x, db, id, input).value, id, input, x.now)
  {
    var row := MovedRow(x, db, id, input);
    MovedRowIsAsAsked(x, db, id, input);
    SavedOne(db, row, x.now, MovedBody(db, id, input));
    if row.lane != db.cards[id].lane {
      OneMoreIn(db, Move(x, db, id, input).value, row);
    }
  }

  // ---- Cancel and reopen ----

  ghost predicate CancelledAsAsked(before: Db, after: Db, id: CardId, resolution: Resolution, now: Time) {
    && OnlyWrites(before, after, id)
    && var a, b := before.cards[id], after.cards[id];
    && a.lane in before.lanes && IsColumn(before, a.board, Done, b.lane)
    && SameContents(a, b) && Bumped(a, b, now) && b.resolution == Some(resolution) && b.workStartedAt == a.workStartedAt
    && b.waitingReason.None? && b.expectedResumeAt.None? && b.resumeAlertedAt.None?
    && Told(before, after, id, now, CardCancelled(CancellationOf(before, a, resolution)))
  }

  lemma CancelStores(x: Ctx, db: Db, id: CardId, resolution: Resolution, version: nat)
    requires WellFormed(db) && Cancel(x, db, id, resolution, version).Success?
    ensures CancelledAsAsked(db, Cancel(x, db, id, resolution, version).value, id, resolution, x.now)
  {
    var card := db.cards[id];
    var row := CancelledRow(x, db, id, resolution, LaneByKey(db, card.board, Done).value);
    SavedOne(db, row, x.now, CardCancelled(CancellationOf(db, card, resolution)));
  }

  /** A reopened card is as it was, but for its place, its progress, and that it is neither resolved nor archived. */
  ghost predicate ReopenedAsAsked(before: Db, after: Db, id: CardId, now: Time) {
    && OnlyWrites(before, after, id)
    && var a, b := before.cards[id], after.cards[id];
    && b.lane in before.lanes && before.lanes[b.lane].board == a.board
    && b.archivedAt.None? && b.resolution.None? && SameContents(a, b.(archivedAt := a.archivedAt)) && Bumped(a, b, now)
    && Told(before, after, id, now, Reopened(before.lanes[b.lane].key))
  }

  lemma ReopenStores(x: Ctx, db: Db, id: CardId, version: nat)
    requires WellFormed(db) && Reopen(x, db, id, version).Success?
    ensures ReopenedAsAsked(db, Reopen(x, db, id, version).value, id, x.now)
  {
    var row := ReopenedRow(x, db, id);
    SavedOne(db, row, x.now, Reopened(db.lanes[ReopenTarget(db, db.cards[id]).value].key));
  }

  // ---- Archival and the blocked flag ----

  ghost predicate ArchivedAt(before: Db, after: Db, id: CardId, now: Time) {
    && OnlyWrites(before, after, id)
    && var a, b := before.cards[id], after.cards[id];
    && b.archivedAt == Some(now) && Bumped(a, b, now)
    && a == b.(archivedAt := a.archivedAt, version := a.version, updatedAt := a.updatedAt)
    && Told(before, after, id, now, CardArchived)
  }

  lemma ArchiveStores(x: Ctx, db: Db, id: CardId, version: nat)
    requires WellFormed(db) && Archive(x, db, id, version).Success?
    ensures ArchivedAt(db, Archive(x, db, id, version).value, id, x.now)
  {
    ArchivedRowStored(db, id, x.now);
  }

  /** The nightly transaction writes what a manual archival writes, or nothing. */
  lemma ArchiveOneStores(now: Time, db: Db, id: CardId, lane: LaneId, cutoff: Time)
    requires WellFormed(db)
    ensures ArchiveOne(now, db, id, lane, cutoff).Success?
    ensures var db' := ArchiveOne(now, db, id, lane, cutoff).value;
            db' == db || ArchivedAt(db, db', id, now)
  {
    if id in db.cards {
      ArchivedRowStored(db, id, now);
    }
  }

  lemma ArchivedRowStored(db: Db, id: CardId, now: Time)
    requires WellFormed(db) && id in db.cards
    ensures Save(db, ArchivedRow(db.cards[id], now), now, [CardArchived]).Success?
    ensures ArchivedAt(db, Save(db, ArchivedRow(db.cards[id], now), now, [CardArchived]).value, id, now)
  {
    InPlaceKeeps(db, ArchivedRow(db.cards[id], now), now, [CardArchived]);
    SavedOne(db, ArchivedRow(db.cards[id], now), now, CardArchived);
  }

  /** A card is blocked for the stated reason since now, or not at all. */
  ghost predicate BlockedAsAsked(before: Db, after: Db, id: CardId, reason: Option<string>, now: Time) {
    && OnlyWrites(before, after, id)
    && var a, b := before.cards[id], after.cards[id];
    && a.blocked != b.blocked && Bumped(a, b, now)
    && a == b.(blocked := a.blocked, blockedReason := a.blockedReason, blockedAt := a.blockedAt, version := a.version,
               updatedAt := a.updatedAt)
    && match reason
       case Some(why) =>
         b.blocked && b.blockedReason == Some(why) && b.blockedAt == Some(now) && Told(before, after, id, now, BlockRaised(why))
       case None =>
         !b.blocked && b.blockedReason.None? && b.blockedAt.None? && Told(before, after, id, now, BlockCleared)
  }

  lemma SetBlockedStores(x: Ctx, db: Db, id: CardId, reason: Option<string>, version: nat)
    requires WellFormed(db) && SetBlocked(x, db, id, reason, version).Success?
    ensures BlockedAsAsked(db, SetBlocked(x, db, id, reason, version).value, id, reason, x.now)
  {
    SavedOne(db, BlockedRow(db.cards[id], reason, x.now), x.now,
             if reason.Some? then BlockRaised(reason.value) else BlockCleared);
  }

  /** A comment or attachment shows in the trail and leaves the row alone. */
  lemma NoteStores(x: Ctx, db: Db, id: CardId)
    requires WellFormed(db) && Note(x, db, id).Success?
    ensures var db' := Note(x, db, id).value;
            OnlyWrites(db, db', id) && db'.cards == db.cards && Told(db, db', id, x.now, Noted)
  {
    SavedOne(db, db.cards[id], x.now, Noted);
  }

  // ---- Deleted locations ----

  /** No card is left at a deleted location; no other card has changed, and nothing else of these. */
  lemma ForgetStores(db: Db, gone: set<LocationId>)
    ensures ForgetLocations(db, gone).Success?
    ensures var db' := ForgetLocations(db, gone).value;
            && db' == db.(cards := db'.cards) && db'.cards.Keys == db.cards.Keys
            && forall c :: c in db.cards ==>
                 && (db'.cards[c].location.Some? ==> db'.cards[c].location.value !in gone)
                 && db'.cards[c] == db.cards[c].(location := db'.cards[c].location)
                 && (db'.cards[c] != db.cards[c] ==> db.cards[c].location.value in gone)
  {
  }

  // ---- Edits ----

  function Wanted<T>(to: Option<T>, from: T): T {
    if to.Some? then to.value else from
  }

  /** A stated field has the stated value, every other one the value it had. */
  predicate HasEdits(a: Card, b: Card, input: UpdateInput) {
    && b.title == Wanted(input.title, a.title) && b.description == Wanted(input.description, a.description)
    && b.priority == Wanted(input.priority, a.priority) && b.estimate == Wanted(input.estimate, a.estimate)
    && b.assignee == Wanted(input.assignee, a.assignee) && b.location == Wanted(input.location, a.location)
    && b.waitingReason == (if input.waitingReason.Some? then input.waitingReason else a.waitingReason)
    && b.expectedResumeAt == (if input.expectedResumeAt.Some? then input.expectedResumeAt else a.expectedResumeAt)
    // Another date re-arms the overdue alert.
    && b.resumeAlertedAt == (if b.expectedResumeAt != a.expectedResumeAt then None else a.resumeAlertedAt)
  }

  /** The change is one that the edit made. */
  predicate IsChange(c: FieldChange, a: Card, b: Card, tags: set<string>, tags': set<string>) {
    match c
    case TitleChange(from, to) => from == a.title && to == b.title && from != to
    case DescriptionChange(from, to) => from == a.description && to == b.description && from != to
    case PriorityChange(from, to) => from == a.priority && to == b.priority && from != to
    case EstimateChange(from, to) => from == a.estimate && to == b.estimate && from != to
    case AssigneeChange(from, to) => from == a.assignee && to == b.assignee && from != to
    case LocationChange(from, to) => from == a.location && to == b.location && from != to
    case TagsChange(from, to) => from == tags && to == tags' && from != to
    case ReasonChange(from, to) => from == a.waitingReason && to == b.waitingReason && from != to
    case ResumeChange(from, to) => from == a.expectedResumeAt && to == b.expectedResumeAt && from != to
  }

  /** The order in which an edit goes through the fields. */
  function Turn(c: FieldChange): nat {
    match c
    case TitleChange(_, _) => 0
    case DescriptionChange(_, _) => 1
    case PriorityChange(_, _) => 2
    case EstimateChange(_, _) => 3
    case AssigneeChange(_, _) => 4
    case LocationChange(_, _) => 5
    case TagsChange(_, _) => 6
    case ReasonChange(_, _) => 7
    case ResumeChange(_, _) => 8
  }

  predicate InTurn(bodies: seq<Body>) {
    && OnlyFieldChanges(bodies)
    && forall i, j :: 0 <= i < j < |bodies| ==> Turn(bodies[i].change) < Turn(bodies[j].change)
  }

  /** One event for each field that changed, and no other. */
  ghost predicate ListsChanges(bodies: seq<Body>, a: Card, b: Card, tags: set<string>, tags': set<string>) {
    InTurn(bodies) && forall c :: FieldChanged(c) in bodies <==> IsChange(c, a, b, tags, tags')
  }

  /** So far for the first `n` fields. */
  ghost predicate ListsFirst(d: Draft, a: Card, tags: set<string>, tags': set<string>, n: nat) {
    && InTurn(d.bodies) && (forall i :: 0 <= i < |d.bodies| ==> Turn(d.bodies[i].change) < n)
    && forall c :: Turn(c) < n ==> (FieldChanged(c) in d.bodies <==> IsChange(c, a, d.card, tags, tags'))
  }

  lemma FieldKept(d: Draft, d': Draft, a: Card, tags: set<string>, tags': set<string>, n: nat)
    requires ListsFirst(d, a, tags, tags', n) && d' == d && forall c :: Turn(c) == n ==> !IsChange(c, a, d.card, tags, tags')
    ensures ListsFirst(d', a, tags, tags', n + 1)
  {
  }

  lemma FieldChangedNow(d: Draft, d': Draft, a: Card, tags: set<string>, tags': set<string>, n: nat, change: FieldChange)
    requires ListsFirst(d, a, tags, tags', n) && d'.bodies == d.bodies + [FieldChanged(change)]
    requires Turn(change) == n && forall c :: Turn(c) == n ==> (IsChange(c, a, d'.card, tags, tags') <==> c == change)
    requires forall c :: Turn(c) < n ==> (IsChange(c, a, d'.card, tags, tags') <==> IsChange(c, a, d.card, tags, tags'))
    ensures ListsFirst(d', a, tags, tags', n + 1)
  {
    forall c | Turn(c) < n + 1
      ensures FieldChanged(c) in d'.bodies <==> IsChange(c, a, d'.card, tags, tags')
    {
      assert FieldChanged(c) in d'.bodies <==> FieldChanged(c) in d.bodies || c == change;
      if Turn(c) == n {
        assert FieldChanged(c) !in d.bodies;
      }
    }
  }

  lemma TitleListed(d: Draft, a: Card, to: Option<string>, tags: set<string>, tags': set<string>)
    requires ListsFirst(d, a, tags, tags', 0) && d.card.title == a.title
    ensures EditTitle(d, to).card == d.card.(title := Wanted(to, a.title))
    ensures ListsFirst(EditTitle(d, to), a, tags, tags', 1)
  {
    if Changes(to, a.title) {
      FieldChangedNow(d, EditTitle(d, to), a, tags, tags', 0, TitleChange(a.title, to.value));
    } else {
      FieldKept(d, EditTitle(d, to), a, tags, tags', 0);
    }
  }

  lemma DescriptionListed(d: Draft, a: Card, to: Option<string>, tags: set<string>, tags': set<string>)
    requires ListsFirst(d, a, tags, tags', 1) && d.card.description == a.description
    ensures EditDescription(d, to).card == d.card.(description := Wanted(to, a.description))
    ensures ListsFirst(EditDescription(d, to), a, tags, tags', 2)
  {
    if Changes(to, a.description) {
      FieldChangedNow(d, EditDescription(d, to), a, tags, tags', 1, DescriptionChange(a.description, to.value));
    } else {
      FieldKept(d, EditDescription(d, to), a, tags, tags', 1);
    }
  }

  lemma PriorityListed(d: Draft, a: Card, to: Option<Priority>, tags: set<string>, tags': set<string>)
    requires ListsFirst(d, a, tags, tags', 2) && d.card.priority == a.priority
    ensures EditPriority(d, to).card == d.card.(priority := Wanted(to, a.priority))
    ensures ListsFirst(EditPriority(d, to), a, tags, tags', 3)
  {
    if Changes(to, a.priority) {
      FieldChangedNow(d, EditPriority(d, to), a, tags, tags', 2, PriorityChange(a.priority, to.value));
    } else {
      FieldKept(d, EditPriority(d, to), a, tags, tags', 2);
    }
  }

  lemma EstimateListed(d: Draft, a: Card, to: Option<Option<nat>>, tags: set<string>, tags': set<string>)
    requires ListsFirst(d, a, tags, tags', 3) && d.card.estimate == a.estimate
    ensures EditEstimate(d, to).card == d.card.(estimate := Wanted(to, a.estimate))
    ensures ListsFirst(EditEstimate(d, to), a, tags, tags', 4)
  {
    if Changes(to, a.estimate) {
      FieldChangedNow(d, EditEstimate(d, to), a, tags, tags', 3, EstimateChange(a.estimate, to.value));
    } else {
      FieldKept(d, EditEstimate(d, to), a, tags, tags', 3);
    }
  }

  lemma AssigneeListed(d: Draft, a: Card, to: Option<Option<UserId>>, tags: set<string>, tags': set<string>)
    requires ListsFirst(d, a, tags, tags', 4) && d.card.assignee == a.assignee
    ensures EditAssignee(d, to).card == d.card.(assignee := Wanted(to, a.assignee))
    ensures ListsFirst(EditAssignee(d, to), a, tags, tags', 5)
  {
    if Changes(to, a.assignee) {
      FieldChangedNow(d, EditAssignee(d, to), a, tags, tags', 4, AssigneeChange(a.assignee, to.value));
    } else {
      FieldKept(d, EditAssignee(d, to), a, tags, tags', 4);
    }
  }

  lemma LocationListed(d: Draft, a: Card, to: Option<Option<LocationId>>, tags: set<string>, tags': set<string>)
    requires ListsFirst(d, a, tags, tags', 5) && d.card.location == a.location
    ensures EditLocation(d, to).card == d.card.(location := Wanted(to, a.location))
    ensures ListsFirst(EditLocation(d, to), a, tags, tags', 6)
  {
    if Changes(to, a.location) {
      FieldChangedNow(d, EditLocation(d, to), a, tags, tags', 5, LocationChange(a.location, to.value));
    } else {
      FieldKept(d, EditLocation(d, to), a, tags, tags', 5);
    }
  }

  lemma TagsListed(d: Draft, a: Card, changed: bool, tags: set<string>, tags': set<string>)
    requires ListsFirst(d, a, tags, tags', 6) && (changed <==> tags != tags')
    ensures ListsFirst(EditTags(d, changed, tags, tags'), a, tags, tags', 7)
  {
    if changed {
      FieldChangedNow(d, EditTags(d, changed, tags, tags'), a, tags, tags', 6, TagsChange(tags, tags'));
    } else {
      FieldKept(d, d, a, tags, tags', 6);
    }
  }

  lemma ReasonListed(d: Draft, a: Card, to: Option<string>, tags: set<string>, tags': set<string>)
    requires ListsFirst(d, a, tags, tags', 7) && d.card.waitingReason == a.waitingReason
    ensures EditReason(d, to).card == d.card.(waitingReason := if to.Some? then to else a.waitingReason)
    ensures ListsFirst(EditReason(d, to), a, tags, tags', 8)
  {
    if to.Some? && to != a.waitingReason {
      FieldChangedNow(d, EditReason(d, to), a, tags, tags', 7, ReasonChange(a.waitingReason, to));
    } else {
      FieldKept(d, d, a, tags, tags', 7);
    }
  }

  lemma ResumeListed(d: Draft, a: Card, to: Option<Day>, tags: set<string>, tags': set<string>)
    requires ListsFirst(d, a, tags, tags', 8)
    requires d.card.expectedResumeAt == a.expectedResumeAt && d.card.resumeAlertedAt == a.resumeAlertedAt
    ensures var day := if to.Some? then to else a.expectedResumeAt;
            EditResume(d, to).card ==
              d.card.(expectedResumeAt := day, resumeAlertedAt := if day != a.expectedResumeAt then None else a.resumeAlertedAt)
    ensures ListsFirst(EditResume(d, to), a, tags, tags', 9)
  {
    if to.Some? && to != a.expectedResumeAt {
      FieldChangedNow(d, EditResume(d, to), a, tags, tags', 8, ResumeChange(a.expectedResumeAt, to));
    } else {
      FieldKept(d, d, a, tags, tags', 8);
    }
  }

  lemma FieldsListed(a: Card, input: UpdateInput, tags: set<string>, tags': set<string>)
    ensures ListsFirst(EditFields(a, input), a, tags, tags', 6)
    ensures EditFields(a, input).card ==
              a.(title := Wanted(input.title, a.title), description := Wanted(input.description, a.description),
                 priority := Wanted(input.priority, a.priority), estimate := Wanted(input.estimate, a.estimate),
                 assignee := Wanted(input.assignee, a.assignee), location := Wanted(input.location, a.location))
  {
    var d0 := Draft(a, []);
    var d1 := EditTitle(d0, input.title);
    TitleListed(d0, a, input.title, tags, tags');
    var d2 := EditDescription(d1, input.description);
    DescriptionListed(d1, a, input.description, tags, tags');
    var d3 := EditPriority(d2, input.priority);
    PriorityListed(d2, a, input.priority, tags, tags');
    var d4 := EditEstimate(d3, input.estimate);
    EstimateListed(d3, a, input.estimate, tags, tags');
    var d5 := EditAssignee(d4, input.assignee);
    AssigneeListed(d4, a, input.assignee, tags, tags');
    LocationListed(d5, a, input.location, tags, tags');
  }

  lemma EditsListed(a: Card, input: UpdateInput, retagged: bool, tags: set<string>, tags': set<string>)
    requires retagged <==> tags != tags'
    ensures var draft := EditResume(EditReason(EditTags(EditFields(a, input), retagged, tags, tags'), input.waitingReason),
                                    input.expectedResumeAt);
            HasEdits(a, draft.card, input) && ListsChanges(draft.bodies, a, draft.card, tags, tags')
  {
    var d6 := EditFields(a, input);
    FieldsListed(a, input, tags, tags');
    var d7 := EditTags(d6, retagged, tags, tags');
    TagsListed(d6, a, retagged, tags, tags');
    var d8 := EditReason(d7, input.waitingReason);
    ReasonListed(d7, a, input.waitingReason, tags, tags');
    var d9 := EditResume(d8, input.expectedResumeAt);
    ResumeListed(d8, a, input.expectedResumeAt, tags, tags');
    AllListed(d9, a, tags, tags');
  }

  lemma AllListed(d: Draft, a: Card, tags: set<string>, tags': set<string>)
    requires ListsFirst(d, a, tags, tags', 9)
    ensures ListsChanges(d.bodies, a, d.card, tags, tags')
  {
    assert forall c :: Turn(c) < 9;
  }

  /** What the edit makes of the row, and the events that tell it. */
  lemma DraftListed(db: Db, id: CardId, input: UpdateInput)
    requires WellFormed(db) && id in db.cards
    ensures var (known, folded) := WantedTags(db, id, input.tags);
            var draft := EditAll(db, id, input);
            && HasEdits(db.cards[id], draft.card, input)
            && ListsChanges(draft.bodies, db.cards[id], draft.card, TagNames(db.tags, db.cardTags[id]), TagNames(known, folded))
  {
    var a := db.cards[id];
    var (known, folded) := WantedTags(db, id, input.tags);
    var tags, tags' := TagNames(db.tags, db.cardTags[id]), TagNames(known, folded);
    TagChangeShows(db, id, input);
    EditsListed(a, input, folded != db.cardTags[id], tags, tags');
  }

  /** A card has other tags if and only if their names are others. */
  lemma TagChangeShows(db: Db, id: CardId, input: UpdateInput)
    requires WellFormed(db) && id in db.cards
    ensures var (known, folded) := WantedTags(db, id, input.tags);
            folded != db.cardTags[id] <==> TagNames(db.tags, db.cardTags[id]) != TagNames(known, folded)
  {
    var (known, folded) := WantedTags(db, id, input.tags);
    if input.tags.Some? { TagsResolved(db.tags, input.tags.value); }
    if folded == db.cardTags[id] {
      assert forall f :: f in folded ==> known[f] == db.tags[f];
      assert TagNames(db.tags, folded) == TagNames(known, folded);
    } else if TagNames(db.tags, db.cardTags[id]) == TagNames(known, folded) {
      NamesTellTagsApart(db.tags, known, db.cardTags[id], folded);
    }
  }

  /** Stated tags replace the ones the card had. */
  ghost predicate RetaggedAsAsked(before: Db, after: Db, id: CardId, tags: Option<seq<string>>) {
    && id in before.cardTags && id in after.cardTags
    && before.cardTags[id] <= before.tags.Keys && after.cardTags[id] <= after.tags.Keys
    && match tags
       case None => after.tags == before.tags && after.cardTags[id] == before.cardTags[id]
       case Some(names) => Spelled(before.tags, after.tags, names) && after.cardTags[id] == FoldedAll(names)
  }

  /** The events that the trail has got on top, all at once. */
  ghost predicate ToldAll(before: Db, after: Db, id: CardId, now: Time, bodies: seq<Body>) {
    && id in before.log && id in after.log && after.log[id] == before.log[id] + Stamp(before.nextEvent, now, bodies)
    && after.nextEvent == before.nextEvent + |bodies|
  }

  ghost predicate EditedAsAsked(before: Db, after: Db, id: CardId, input: UpdateInput, now: Time) {
    && id in before.cards && id in after.cards && id in after.log && RetaggedAsAsked(before, after, id, input.tags)
    && var a, b := before.cards[id], after.cards[id];
    && after == before.(cards := before.cards[id := b], log := before.log[id := after.log[id]], tags := after.tags,
                        cardTags := before.cardTags[id := after.cardTags[id]], nextEvent := after.nextEvent)
    && OnlyEdited(a, b.(version := a.version, updatedAt := a.updatedAt)) && HasEdits(a, b, input)
    && exists bodies ::
         && ToldAll(before, after, id, now, bodies)
         && ListsChanges(bodies, a, b, TagNames(before.tags, before.cardTags[id]), TagNames(after.tags, after.cardTags[id]))
         && if bodies == [] then b == a else Bumped(a, b, now)
  }

  /** The tables after an edit: the wanted tags, the drafted row and its events; without events nothing but tag rows. */
  ghost predicate DraftSaved(db: Db, db': Db, id: CardId, known: map<string, string>, folded: set<string>, draft: Draft,
                             now: Time)
    requires id in db.cards && id in db.log
  {
    && id in db'.cards && id in db'.log && draft.card.id == id
    && db' == db.(cards := db.cards[id := db'.cards[id]], log := db.log[id := db'.log[id]], tags := known,
                  cardTags := db.cardTags[id := folded], nextEvent := db.nextEvent + |draft.bodies|)
    && db'.cards[id] == (if draft.bodies == [] then db.cards[id] else Edited(draft.card, now))
    && db'.log[id] == db.log[id] + Stamp(db.nextEvent, now, draft.bodies)
  }

  lemma BareUpdateSaves(x: Ctx, db: Db, id: CardId, input: UpdateInput)
    requires WellFormed(db) && Update(x, db, id, input).Success? && EditAll(db, id, input).bodies == []
    ensures var (known, folded) := WantedTags(db, id, input.tags);
            DraftSaved(db, Update(x, db, id, input).value, id, known, folded, EditAll(db, id, input), x.now)
  {
    NothingEdited(db, id, input);
    assert db.log[id] + Stamp(db.nextEvent, x.now, []) == db.log[id];
  }

  lemma UpdateSaves(x: Ctx, db: Db, id: CardId, input: UpdateInput)
    requires WellFormed(db) && Update(x, db, id, input).Success? && EditAll(db, id, input).bodies != []
    ensures var (known, folded) := WantedTags(db, id, input.tags);
            DraftSaved(db, Update(x, db, id, input).value, id, known, folded, EditAll(db, id, input), x.now)
  {
    var (known, folded) := WantedTags(db, id, input.tags);
    DraftWrites(db, Update(x, db, id, input).value, id, known, folded, EditAll(db, id, input), x.now);
  }

  lemma DraftWrites(db: Db, db': Db, id: CardId, known: map<string, string>, folded: set<string>, draft: Draft, now: Time)
    requires id in db.cards && id in db.log && draft.card.id == id && draft.bodies != []
    requires Save(db.(tags := known, cardTags := db.cardTags[id := folded]), Edited(draft.card, now), now, draft.bodies)
             == Success(db')
    ensures DraftSaved(db, db', id, known, folded, draft, now)
  {
  }

  lemma UpdateStores(x: Ctx, db: Db, id: CardId, input: UpdateInput)
    requires WellFormed(db) && Update(x, db, id, input).Success?
    ensures EditedAsAsked(db, Update(x, db, id, input).value, id, input, x.now)
  {
    if EditAll(db, id, input).bodies == [] {
      NothingEdited(db, id, input);
      BareUpdateSaves(x, db, id, input);
    } else {
      UpdateSaves(x, db, id, input);
    }
    SavedAsAsked(db, Update(x, db, id, input).value, id, input, x.now);
  }

  lemma SavedAsAsked(db: Db, db': Db, id: CardId, input: UpdateInput, now: Time)
    requires WellFormed(db) && id in db.cards
    requires var (known, folded) := WantedTags(db, id, input.tags);
             DraftSaved(db, db', id, known, folded, EditAll(db, id, input), now)
    requires EditAll(db, id, input).bodies == [] ==> EditAll(db, id, input).card == db.cards[id]
    ensures EditedAsAsked(db, db', id, input, now)
  {
    DraftListed(db, id, input);
    WantedTagsAsAsked(db, id, input.tags);
    EditStored(db, db', id, input, EditAll(db, id, input), now);
  }

  lemma WantedTagsAsAsked(db: Db, id: CardId, tags: Option<seq<string>>)
    requires WellFormed(db) && id in db.cards
    ensures var (known, folded) := WantedTags(db, id, tags);
            RetaggedAsAsked(db, db.(tags := known, cardTags := db.cardTags[id := folded]), id, tags)
  {
    if tags.Some? {
      TagsResolved(db.tags, tags.value);
      TagsSpelled(db.tags, tags.value);
    }
  }

  /** The row with its edits and the events that list them, over the wanted tags. */
  lemma EditStored(db: Db, db': Db, id: CardId, input: UpdateInput, draft: Draft, now: Time)
    requires id in db.cards && id in db'.cards && id in db'.log && RetaggedAsAsked(db, db', id, input.tags)
    requires db' == db.(cards := db.cards[id := db'.cards[id]], log := db.log[id := db'.log[id]], tags := db'.tags,
                        cardTags := db.cardTags[id := db'.cardTags[id]], nextEvent := db'.nextEvent)
    requires OnlyEdited(db.cards[id], draft.card) && HasEdits(db.cards[id], draft.card, input)
    requires ListsChanges(draft.bodies, db.cards[id], draft.card, TagNames(db.tags, db.cardTags[id]),
                          TagNames(db'.tags, db'.cardTags[id]))
    requires ToldAll(db, db', id, now, draft.bodies)
    requires db'.cards[id] == if draft.bodies == [] then db.cards[id] else Edited(draft.card, now)
    requires draft.bodies == [] ==> draft.card == db.cards[id]
    ensures EditedAsAsked(db, db', id, input, now)
  {
    assert SameFields(draft.card, db'.cards[id]);
    SameChanges(draft.bodies, db.cards[id], draft.card, db'.cards[id], TagNames(db.tags, db.cardTags[id]),
                TagNames(db'.tags, db'.cardTags[id]));
  }

  predicate SameFields(a: Card, b: Card) {
    b == a.(version := b.version, updatedAt := b.updatedAt)
  }

  lemma SameChanges(bodies: seq<Body>, a: Card, b: Card, b': Card, tags: set<string>, tags': set<string>)
    requires ListsChanges(bodies, a, b, tags, tags') && SameFields(b, b')
    ensures ListsChanges(bodies, a, b', tags, tags')
  {
    assert forall c :: IsChange(c, a, b', tags, tags') <==> IsChange(c, a, b, tags, tags');
  }

  /** An edit without events leaves row and tags as they were. */
  lemma NothingEdited(db: Db, id: CardId, input: UpdateInput)
    requires WellFormed(db) && id in db.cards && EditAll(db, id, input).bodies == []
    ensures EditAll(db, id, input).card == db.cards[id] && WantedTags(db, id, input.tags).1 == db.cardTags[id]
  {
    DraftListed(db, id, input);
    TagChangeShows(db, id, input);
    var a, b := db.cards[id], EditAll(db, id, input).card;
    var (known, folded) := WantedTags(db, id, input.tags);
    var tags, tags' := TagNames(db.tags, db.cardTags[id]), TagNames(known, folded);
    forall c
      ensures !IsChange(c, a, b, tags, tags')
    {
      assert FieldChanged(c) !in EditAll(db, id, input).bodies;
    }
    assert !IsChange(TitleChange(a.title, b.title), a, b, tags, tags');
    assert !IsChange(DescriptionChange(a.description, b.description), a, b, tags, tags');
    assert !IsChange(PriorityChange(a.priority, b.priority), a, b, tags, tags');
    assert !IsChange(EstimateChange(a.estimate, b.estimate), a, b, tags, tags');
    assert !IsChange(AssigneeChange(a.assignee, b.assignee), a, b, tags, tags');
    assert !IsChange(LocationChange(a.location, b.location), a, b, tags, tags');
    assert !IsChange(TagsChange(tags, tags'), a, b, tags, tags');
    assert !IsChange(ReasonChange(a.waitingReason, b.waitingReason), a, b, tags, tags');
    assert !IsChange(ResumeChange(a.expectedResumeAt, b.expectedResumeAt), a, b, tags, tags');
  }
}
