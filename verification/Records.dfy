/**
 * One card with everything the tables hold about it, and the two invariants of such a record: its trail
 * replays to it, and its fields fit the lane it is in.
 */
module Records {
  import opened Wrappers
  import opened Domain
  import opened Audit
  import opened Store
  import opened Commands

  datatype Record = Record(card: Card, key: LaneKey, bornIn: LaneKey, log: seq<Event>, tags: set<string>)

  /** All rows that belong to the card are there. */
  predicate Present(db: Db, c: CardId) {
    && c in db.cards && db.cards[c].lane in db.lanes
    && c in db.log && c in db.cardTags && db.cardTags[c] <= db.tags.Keys
    && |db.log[c]| > 0 && db.log[c][0].body.Created? && db.log[c][0].body.snapshot.lane in db.keyEver
  }

  function RecordOf(db: Db, c: CardId): Record
    requires Present(db, c)
  {
    // The creation snapshot names the lane of birth by id; its key is on record.
    Record(db.cards[c], KeyOf(db, db.cards[c]), db.keyEver[db.log[c][0].body.snapshot.lane], db.log[c],
           TagNames(db.tags, db.cardTags[c]))
  }

  /** The trail explains the card: replaying it gives exactly what the row, its lane and its tags say. */
  predicate Traced(r: Record) {
    && Coherent(r.bornIn, r.log)
    && Replay(r.bornIn, r.log) == ViewOf(r.card, r.key, r.tags)
  }

  /** The fields a card may carry in a lane with this key. */
  predicate Fits(card: Card, key: LaneKey) {
    && (card.resolution.Some? <==> key == Done)
    && (card.waitingReason.Some? <==> key == WaitingPartsVendor)
    && (card.expectedResumeAt.Some? <==> key == WaitingPartsVendor)
    && (card.resumeAlertedAt.Some? ==> key == WaitingPartsVendor)
    && (card.archivedAt.Some? ==> key == Done)
    && (card.blocked <==> card.blockedReason.Some?)
    && (card.blocked <==> card.blockedAt.Some?)
    && (key == InProgress ==> card.workStartedAt.Some?)
  }

  predicate IsCancelled(card: Card) {
    card.resolution.Some? && card.resolution != Some(Completed)
  }

  /** A cancelled card's newest cancellation holds what a reopen needs. */
  predicate Undoable(card: Card, log: seq<Event>) {
    IsCancelled(card) ==>
      var last := LastCancel(log);
      last.Some? && RecordsUndo(card, last.value)
  }

  predicate RecordsUndo(card: Card, c: Cancellation) {
    && Some(c.resolution) == card.resolution
    && c.priorLane != Done
    && (c.waiting.Some? <==> c.priorLane == WaitingPartsVendor)
    && (c.waiting.Some? ==> c.waiting.value.resumeAt.Some?)
    && (c.priorLane == InProgress ==> card.workStartedAt.Some?)
  }

  predicate Shaped(r: Record) {
    Fits(r.card, r.key) && Undoable(r.card, r.log)
  }

  ghost predicate AllTraced(db: Db) {
    forall c :: c in db.cards ==> Present(db, c) && Traced(RecordOf(db, c))
  }

  ghost predicate AllShaped(db: Db) {
    forall c :: c in db.cards ==> Present(db, c) && Shaped(RecordOf(db, c))
  }

  // ---- What a write does to the records ----

  /** A record with its row and lane replaced and events added. */
  function Grown(r: Record, card: Card, key: LaneKey, first: EventId, now: Time, bodies: seq<Body>): Record {
    r.(card := card, key := key, log := r.log + Stamp(first, now, bodies))
  }

  lemma OwnRecord(db: Db, db': Db, card: Card, now: Time, bodies: seq<Body>)
    requires Present(db, card.id) && card.lane in db.lanes
    requires Save(db, card, now, bodies) == Success(db')
    ensures Present(db', card.id)
    ensures RecordOf(db', card.id) == Grown(RecordOf(db, card.id), card, KeyOf(db, card), db.nextEvent, now, bodies)
  {
    var log := db.log[card.id];
    assert (log + Stamp(db.nextEvent, now, bodies))[0] == log[0];
  }

  lemma OtherRecord(db: Db, db': Db, card: Card, now: Time, bodies: seq<Body>, d: CardId)
    requires card.id in db.log && Save(db, card, now, bodies) == Success(db')
    requires Present(db, d) && d != card.id
    ensures Present(db', d) && RecordOf(db', d) == RecordOf(db, d)
  {
  }

  // ---- Events and the trail ----

  lemma GrownTraced(r: Record, card: Card, key: LaneKey, first: EventId, now: Time, bodies: seq<Body>)
    requires Traced(r)
    requires ExplainsAll(ViewOf(r.card, r.key, r.tags), bodies)
    requires ApplyAll(ViewOf(r.card, r.key, r.tags), bodies) == ViewOf(card, key, r.tags)
    ensures Traced(Grown(r, card, key, first, now, bodies))
  {
    AppendAll(r.bornIn, r.log, first, now, bodies);
  }

  lemma OneBody(v: View, b: Body)
    ensures ApplyAll(v, [b]) == Apply(v, b)
    ensures ExplainsAll(v, [b]) <==> Explains(v, b)
  {
    assert [b][..0] == [];
  }

  /** One saved row whose events explain it keeps every trail true. */
  lemma SaveTraced(db: Db, db': Db, card: Card, now: Time, bodies: seq<Body>)
    requires AllTraced(db) && card.id in db.cards && card.lane in db.lanes
    requires Save(db, card, now, bodies) == Success(db')
    requires var r := RecordOf(db, card.id);
             && ExplainsAll(ViewOf(r.card, r.key, r.tags), bodies)
             && ApplyAll(ViewOf(r.card, r.key, r.tags), bodies) == ViewOf(card, KeyOf(db, card), r.tags)
    ensures AllTraced(db')
  {
    OwnRecord(db, db', card, now, bodies);
    GrownTraced(RecordOf(db, card.id), card, KeyOf(db, card), db.nextEvent, now, bodies);
    forall d | d in db'.cards
      ensures Present(db', d) && Traced(RecordOf(db', d))
    {
      if d != card.id {
        OtherRecord(db, db', card, now, bodies, d);
      }
    }
  }

  /** The same with a single event. */
  lemma SaveOneTraced(db: Db, db': Db, card: Card, now: Time, b: Body)
    requires AllTraced(db) && card.id in db.cards && card.lane in db.lanes
    requires Save(db, card, now, [b]) == Success(db')
    requires var r := RecordOf(db, card.id);
             && Explains(ViewOf(r.card, r.key, r.tags), b)
             && Apply(ViewOf(r.card, r.key, r.tags), b) == ViewOf(card, KeyOf(db, card), r.tags)
    ensures AllTraced(db')
  {
    var r := RecordOf(db, card.id);
    OneBody(ViewOf(r.card, r.key, r.tags), b);
    SaveTraced(db, db', card, now, [b]);
  }
}
