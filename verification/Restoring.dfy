/** Cancel, any run that leaves the card in done, reopen: the card is back where it was. */
module Restoring {
  import opened Wrappers
  import opened Domain
  import opened Store
  import opened Commands
  import opened Records
  import opened Shapes
  import opened Effects
  import opened Runs

  ghost predicate InDone(db: Db, c: CardId) {
    Held(db, c) && KeyOf(db, db.cards[c]) == Done
  }

  /** Edits, reorders, blocking, archiving, refused reopens and the rest may happen, but no reopen of the card succeeds. */
  ghost predicate StaysInDone(dbs: seq<Db>, steps: seq<Timed>, c: CardId)
    requires |dbs| == |steps| + 1
  {
    && (forall k :: 0 <= k < |dbs| ==> InDone(dbs[k], c))
    && (forall k :: 0 <= k < |steps| && steps[k].c.DoReopen? && steps[k].c.id == c ==> dbs[k + 1] == dbs[k])
  }

  /** All that a reopen will look at is as it was. */
  ghost predicate Remembers(was: Db, db: Db, c: CardId) {
    && Held(was, c) && Held(db, c)
    && LastCancel(db.log[c]) == LastCancel(was.log[c])
    && StillUndoable(was.cards[c], db.cards[c]) && db.cards[c].board == was.cards[c].board
  }

  lemma RemembersLink(dbs: seq<Db>, steps: seq<Timed>, k: nat, c: CardId)
    requires IsRun(dbs, steps) && k < |steps| && InDone(dbs[k], c) && InDone(dbs[k + 1], c)
    requires steps[k].c.DoReopen? && steps[k].c.id == c ==> dbs[k + 1] == dbs[k]
    ensures Remembers(dbs[k], dbs[k + 1], c)
  {
    assert Linked(dbs, steps, k);
    StepSurvives(steps[k].x, dbs[k], steps[k].c, c);
  }

  lemma {:induction false} RunRemembers(dbs: seq<Db>, steps: seq<Timed>, k: nat, c: CardId)
    requires IsRun(dbs, steps) && StaysInDone(dbs, steps, c) && k <= |steps|
    ensures Remembers(dbs[0], dbs[k], c)
  {
    assert InDone(dbs[k], c);
    if k > 0 {
      RunRemembers(dbs, steps, k - 1, c);
      RemembersLink(dbs, steps, k - 1, c);
    }
  }

  /** What a cancellation leaves behind for a later reopen. */
  ghost predicate Recorded(db: Db, db': Db, id: CardId, resolution: Resolution) {
    && Held(db, id) && Held(db', id)
    && var before, after := db.cards[id], db'.cards[id];
    && IsCancelled(after)
    && LastCancel(db'.log[id]) == Some(CancellationOf(db, before, resolution))
    && after.workStartedAt == before.workStartedAt && after.board == before.board
    && after.waitingReason.None? && after.expectedResumeAt.None? && after.resumeAlertedAt.None?
  }

  lemma CancelRecords(x: Ctx, db: Db, db': Db, id: CardId, resolution: Resolution, version: nat)
    requires WellFormed(db) && Cancel(x, db, id, resolution, version) == Success(db')
    ensures Recorded(db, db', id, resolution)
  {
    var done := LaneByKey(db, db.cards[id].board, Done).value;
    SavedCancelRecords(db, db', CancelledRow(x, db, id, resolution, done), x.now, resolution);
  }

  lemma SavedCancelRecords(db: Db, db': Db, row: Card, now: Time, resolution: Resolution)
    requires Held(db, row.id) && row.lane in db.lanes && resolution != Completed && row.board == db.cards[row.id].board
    requires row.resolution == Some(resolution) && row.workStartedAt == db.cards[row.id].workStartedAt
    requires row.waitingReason.None? && row.expectedResumeAt.None? && row.resumeAlertedAt.None?
    requires Save(db, row, now, [CardCancelled(CancellationOf(db, db.cards[row.id], resolution))]) == Success(db')
    ensures Recorded(db, db', row.id, resolution)
  {
    OneMoreEvent(db.log[row.id], db.nextEvent, now, CardCancelled(CancellationOf(db, db.cards[row.id], resolution)));
  }

  /** The row that a reopen writes for a cancelled card, given what its newest cancellation recorded. */
  ghost predicate ReadBack(db: Db, db': Db, id: CardId, record: Cancellation)
    requires WellFormed(db)
  {
    && Held(db, id) && Held(db', id)
    && var before, after := db.cards[id], db'.cards[id];
    var home := LaneByKey(db, before.board, record.priorLane);
    && after.board == before.board && after.resolution.None? && after.archivedAt.None?
    && (home.Some? ==>
          && KeyOf(db', after) == record.priorLane && after.workStartedAt == before.workStartedAt
          && (record.priorLane != WaitingPartsVendor ==> SameWaiting(before, after))
          && (record.priorLane == WaitingPartsVendor ==>
                && after.resumeAlertedAt.None? && record.waiting.Some?
                && after.waitingReason == Some(record.waiting.value.reason)
                && after.expectedResumeAt == record.waiting.value.resumeAt))
    && (home.None? ==>
          && after.workStartedAt.None? && SameWaiting(before, after)
          && (KeyOf(db', after) == Ready || FirstLane(db, before.board) == Some(after.lane)))
  }

  /** A restorable record takes the card to the lane it names, unless there is none with that key any more. */
  lemma RestoredTo(db: Db, card: Card, record: Cancellation)
    requires WellFormed(db) && card.id in db.log && IsCancelled(card) && LastCancel(db.log[card.id]) == Some(record)
    requires record.priorLane == WaitingPartsVendor ==> record.waiting.Some?
    ensures Restorable(db, card) == Some(record)
    ensures RestoredLane(db, card) == LaneByKey(db, card.board, record.priorLane)
  {
  }

  lemma ReopenWrites(x: Ctx, db: Db, db': Db, id: CardId, version: nat)
    requires WellFormed(db) && Reopen(x, db, id, version) == Success(db')
    ensures Held(db, id) && db.cards[id].id == id && ReopenTarget(db, db.cards[id]).Some?
    ensures Held(db', id) && db'.lanes == db.lanes && db'.cards[id] == ReopenedRow(x, db, id)
  {
  }

  lemma ReopenReads(x: Ctx, db: Db, db': Db, id: CardId, version: nat, record: Cancellation)
    requires WellFormed(db) && Reopen(x, db, id, version) == Success(db')
    requires IsCancelled(db.cards[id]) && LastCancel(db.log[id]) == Some(record)
    requires record.priorLane == WaitingPartsVendor ==> record.waiting.Some?
    ensures ReadBack(db, db', id, record)
  {
    ReopenWrites(x, db, db', id, version);
    RowReadsBack(x, db, db', id, record);
  }

  /** A card that is not cancelled starts a new cycle in ready, or in the leftmost column if there is no ready. */
  lemma CompletedStartsOver(x: Ctx, db: Db, db': Db, id: CardId, version: nat)
    requires WellFormed(db) && Reopen(x, db, id, version) == Success(db') && !IsCancelled(db.cards[id])
    ensures Held(db, id) && Held(db', id)
    ensures var before, after := db.cards[id], db'.cards[id];
            && after.resolution.None? && after.archivedAt.None? && after.workStartedAt.None? && SameWaiting(before, after)
            && after.board == before.board
            && if LaneByKey(db, before.board, Ready).Some? then KeyOf(db', after) == Ready
               else Leftmost(db, before.board, after.lane)
  {
    ReopenWrites(x, db, db', id, version);
  }

  lemma RowReadsBack(x: Ctx, db: Db, db': Db, id: CardId, record: Cancellation)
    requires WellFormed(db) && Held(db, id) && Held(db', id) && db.cards[id].id == id && db'.lanes == db.lanes
    requires ReopenTarget(db, db.cards[id]).Some? && db'.cards[id] == ReopenedRow(x, db, id)
    requires IsCancelled(db.cards[id]) && LastCancel(db.log[id]) == Some(record)
    requires record.priorLane == WaitingPartsVendor ==> record.waiting.Some?
    ensures ReadBack(db, db', id, record)
  {
    RestoredTo(db, db.cards[id], record);
  }

  lemma RecordedThenReadBack(db: Db, cancelled: Db, between: Db, db': Db, id: CardId, resolution: Resolution)
    requires Recorded(db, cancelled, id, resolution) && Remembers(cancelled, between, id) && WellFormed(between)
    requires Fits(db.cards[id], KeyOf(db, db.cards[id]))
    requires ReadBack(between, db', id, CancellationOf(db, db.cards[id], resolution))
    ensures BackWhereItWas(db, between, db', id)
  {
  }

  /**
   * `db` is cancelled into the first state of a run, the last state of which is reopened into `db'`: while the old
   * lane key still exists, lane key, waiting state and work start are those of `db`.
   */
  lemma CancelThenReopen(x: Ctx, db: Db, id: CardId, resolution: Resolution, version: nat,
                         dbs: seq<Db>, steps: seq<Timed>, y: Ctx, version': nat, db': Db)
    requires WellFormed(db) && id in db.cards && db.cards[id].lane in db.lanes && Fits(db.cards[id], KeyOf(db, db.cards[id]))
    requires IsRun(dbs, steps) && StaysInDone(dbs, steps, id) && WellFormed(dbs[|steps|])
    requires Cancel(x, db, id, resolution, version) == Success(dbs[0])
    requires Reopen(y, dbs[|steps|], id, version') == Success(db')
    ensures BackWhereItWas(db, dbs[|steps|], db', id)
  {
    CancelRecords(x, db, dbs[0], id, resolution, version);
    RunRemembers(dbs, steps, |steps|, id);
    ReopenReads(y, dbs[|steps|], db', id, version', CancellationOf(db, db.cards[id], resolution));
    RecordedThenReadBack(db, dbs[0], dbs[|steps|], db', id, resolution);
  }

  ghost predicate BackWhereItWas(db: Db, between: Db, db': Db, id: CardId)
    requires WellFormed(between)
  {
    && Held(db', id) && id in db.cards && db.cards[id].lane in db.lanes
    && var before, after := db.cards[id], db'.cards[id];
    && after.board == before.board && after.resolution.None? && after.archivedAt.None? && after.resumeAlertedAt.None?
    && if LaneByKey(between, before.board, KeyOf(db, before)).Some? then
         && KeyOf(db', after) == KeyOf(db, before) && after.workStartedAt == before.workStartedAt
         && after.waitingReason == before.waitingReason && after.expectedResumeAt == before.expectedResumeAt
       else
         && after.workStartedAt.None? && after.waitingReason.None? && after.expectedResumeAt.None?
         && (KeyOf(db', after) == Ready || FirstLane(between, before.board) == Some(after.lane))
  }
}

/** Each waiting episode is claimed for an overdue alert at most once. */
module Alerts {
  import opened Wrappers
  import opened Domain
  import opened Store
  import opened Commands
  import opened Effects
  import opened Runs

  ghost predicate Waits(db: Db, c: CardId) {
    Held(db, c) && KeyOf(db, db.cards[c]) == WaitingPartsVendor
  }

  /** The card comes to wait, by whatever command, or waits for another date than before. */
  ghost predicate StartsEpisode(db: Db, db': Db, c: CardId) {
    Waits(db', c) && (Waits(db, c) ==> db'.cards[c].expectedResumeAt != db.cards[c].expectedResumeAt)
  }

  /** Step `i` claims the card. */
  ghost predicate ClaimedAt(dbs: seq<Db>, steps: seq<Timed>, i: nat, c: CardId)
    requires |dbs| == |steps| + 1 && i < |steps|
  {
    steps[i].c.DoClaim? && Due(dbs[i], steps[i].x.today, c)
  }

  ghost predicate EpisodeStartsIn(dbs: seq<Db>, i: nat, j: nat, c: CardId)
    requires j < |dbs|
  {
    exists k :: i <= k < j && StartsEpisode(dbs[k], dbs[k + 1], c)
  }

  lemma ClaimMarks(x: Ctx, db: Db, c: CardId)
    requires WellFormed(db) && Due(db, x.today, c)
    ensures var db' := ClaimOverdue(x, db).value; Waits(db', c) && db'.cards[c].resumeAlertedAt == Some(x.now)
  {
  }

  /** Waiting with no mark from the last claim. */
  ghost predicate Unmarked(db: Db, c: CardId) {
    Waits(db, c) && db.cards[c].resumeAlertedAt.None?
  }

  lemma ClaimLink(dbs: seq<Db>, steps: seq<Timed>, k: nat, c: CardId)
    requires IsRun(dbs, steps) && k < |steps| && ClaimedAt(dbs, steps, k, c)
    ensures Unmarked(dbs[k], c) && !Unmarked(dbs[k + 1], c)
  {
    assert Linked(dbs, steps, k);
    ClaimMarks(steps[k].x, dbs[k], c);
  }

  lemma MarkLink(dbs: seq<Db>, steps: seq<Timed>, k: nat, c: CardId)
    requires IsRun(dbs, steps) && k < |steps|
    ensures Unmarked(dbs[k + 1], c) ==> StartsEpisode(dbs[k], dbs[k + 1], c) || Unmarked(dbs[k], c)
  {
    assert Linked(dbs, steps, k);
    if c in dbs[k].cards && c in dbs[k + 1].cards {
      StepSurvives(steps[k].x, dbs[k], steps[k].c, c);
    }
  }

  lemma {:induction false} MarkLasts(dbs: seq<Db>, steps: seq<Timed>, i: nat, j: nat, c: CardId)
    requires IsRun(dbs, steps) && i < j <= |steps| && ClaimedAt(dbs, steps, i, c)
    ensures Unmarked(dbs[j], c) ==> EpisodeStartsIn(dbs, i + 1, j, c)
    decreases j
  {
    if j == i + 1 {
      ClaimLink(dbs, steps, i, c);
    } else {
      MarkLasts(dbs, steps, i, j - 1, c);
      MarkLink(dbs, steps, j - 1, c);
      assert StartsEpisode(dbs[j - 1], dbs[j - 1 + 1], c) ==> EpisodeStartsIn(dbs, i + 1, j, c);
    }
  }

  /** Between two claims of the same card a new episode has begun. */
  lemma ClaimedOncePerEpisode(dbs: seq<Db>, steps: seq<Timed>, i: nat, j: nat, c: CardId)
    requires IsRun(dbs, steps) && i < j < |steps| && ClaimedAt(dbs, steps, i, c) && ClaimedAt(dbs, steps, j, c)
    ensures EpisodeStartsIn(dbs, i + 1, j, c)
  {
    MarkLasts(dbs, steps, i, j, c);
    ClaimLink(dbs, steps, j, c);
  }

  /** Right after a claim run nothing due is left; the run has changed no version and nothing but the alert marks. */
  lemma NothingLeftDue(x: Ctx, db: Db, c: CardId)
    requires WellFormed(db) && c in db.cards
    ensures var db' := ClaimOverdue(x, db).value;
            && !Due(db', x.today, c)
            && c in db'.cards && db'.cards[c].version == db.cards[c].version
            && db'.cards[c] == db.cards[c].(resumeAlertedAt := db'.cards[c].resumeAlertedAt)
            && (db'.cards[c] != db.cards[c] ==> Due(db, x.today, c) && db'.cards[c].resumeAlertedAt == Some(x.now))
  {
  }
}
