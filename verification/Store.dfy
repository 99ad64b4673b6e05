/** The tables behind one board service, and the reads the services make on them. */
module Store {
  import opened Wrappers
  import Finite
  import opened Keys
  import opened Domain
  import opened Audit

  /**
   * `live` holds the boards that are not archived. `log` is the audit table, split by its card column.
   * `keyEver` remembers the key of every lane that ever existed: lane ids are never reused and keys never
   * change, and a creation snapshot names its lane by id only.
   * `tags` maps a folded tag name to the stored spelling, `cardTags` a card to its folded tag names.
   */
  datatype Db = Db(
    live: set<BoardId>,
    lanes: map<LaneId, Lane>,
    keyEver: map<LaneId, LaneKey>,
    cards: map<CardId, Card>,
    log: map<CardId, seq<Event>>,
    tags: map<string, string>,
    cardTags: map<CardId, set<string>>,
    nextEvent: EventId)

  // ---- What the schema and the write paths guarantee about the tables ----

  ghost predicate LanesDistinct(lanes: map<LaneId, Lane>) {
    forall l, m :: l in lanes && m in lanes && l != m && lanes[l].board == lanes[m].board ==>
      lanes[l].key != lanes[m].key && lanes[l].position != lanes[m].position
  }

  ghost predicate CardsPlaced(lanes: map<LaneId, Lane>, cards: map<CardId, Card>) {
    forall c :: c in cards ==>
      cards[c].id == c && cards[c].lane in lanes && lanes[cards[c].lane].board == cards[c].board
  }

  /** UNIQUE(lane, position). */
  ghost predicate PositionsDistinct(cards: map<CardId, Card>) {
    forall c, d :: c in cards && d in cards && c != d && cards[c].lane == cards[d].lane ==>
      cards[c].position != cards[d].position
  }

  ghost predicate TagsFolded(tags: map<string, string>) {
    forall f :: f in tags ==> Fold(tags[f]) == f
  }

  ghost predicate TagsKnown(tags: map<string, string>, cardTags: map<CardId, set<string>>) {
    forall c :: c in cardTags ==> cardTags[c] <= tags.Keys
  }

  ghost predicate KeysRecorded(lanes: map<LaneId, Lane>, keyEver: map<LaneId, LaneKey>) {
    forall l :: l in lanes ==> l in keyEver && keyEver[l] == lanes[l].key
  }

  ghost predicate WellFormed(db: Db) {
    && LanesDistinct(db.lanes)
    && CardsPlaced(db.lanes, db.cards)
    && PositionsDistinct(db.cards)
    && TagsFolded(db.tags)
    && TagsKnown(db.tags, db.cardTags)
    && KeysRecorded(db.lanes, db.keyEver)
    && db.log.Keys == db.cards.Keys == db.cardTags.Keys
  }

  // ---- Lane reads ----

  function LanesOf(db: Db, board: BoardId): set<LaneId> {
    set l | l in db.lanes && db.lanes[l].board == board
  }

  predicate IsColumn(db: Db, board: BoardId, key: LaneKey, l: LaneId) {
    l in db.lanes && db.lanes[l].board == board && db.lanes[l].key == key
  }

  function LaneByKey(db: Db, board: BoardId, key: LaneKey): (r: Option<LaneId>)
    requires WellFormed(db)
    ensures r.Some? ==> r.value in db.lanes && db.lanes[r.value].board == board && db.lanes[r.value].key == key
    ensures r.None? ==> forall l :: l in db.lanes && db.lanes[l].board == board ==> db.lanes[l].key != key
  {
    if exists l :: l in db.lanes && db.lanes[l].board == board && db.lanes[l].key == key then
      var l :| l in db.lanes && db.lanes[l].board == board && db.lanes[l].key == key;
      Some(l)
    else
      None
  }

  predicate Leftmost(db: Db, board: BoardId, l: LaneId) {
    l in LanesOf(db, board)
    && forall m :: m in LanesOf(db, board) ==> db.lanes[l].position <= db.lanes[m].position
  }

  lemma LeftmostExists(db: Db, board: BoardId)
    requires LanesOf(db, board) != {}
    ensures exists l :: Leftmost(db, board, l)
  {
    var leq := (l: LaneId, m: LaneId) => PositionOr0(db, l) <= PositionOr0(db, m);
    Finite.LeastExists(LanesOf(db, board), leq);
    var l :| Finite.IsLeast(leq, l, LanesOf(db, board));
    forall m | m in LanesOf(db, board)
      ensures db.lanes[l].position <= db.lanes[m].position
    {
      assert leq(l, m);
    }
    assert Leftmost(db, board, l);
  }

  function PositionOr0(db: Db, l: LaneId): int {
    if l in db.lanes then db.lanes[l].position else 0
  }

  /** The entry lane: the first column by position. */
  function FirstLane(db: Db, board: BoardId): (r: Option<LaneId>)
    requires WellFormed(db)
    ensures r.Some? ==> Leftmost(db, board, r.value)
    ensures r.None? <==> LanesOf(db, board) == {}
  {
    if LanesOf(db, board) == {} then None
    else
      LeftmostExists(db, board);
      var l :| Leftmost(db, board, l);
      Some(l)
  }

  // ---- Card reads ----

  /** The position keys in a lane, archived rows included. */
  function PositionsIn(cards: map<CardId, Card>, lane: LaneId, but: Option<CardId>): set<Key> {
    set c | c in cards && cards[c].lane == lane && but != Some(c) :: cards[c].position
  }

  function FirstKey(cards: map<CardId, Card>, lane: LaneId): Option<Key> {
    Lowest(PositionsIn(cards, lane, None))
  }

  function LastKey(cards: map<CardId, Card>, lane: LaneId): Option<Key> {
    Highest(PositionsIn(cards, lane, None))
  }

  /** The closest occupied key before `next`, or the last one, leaving out the moving card. */
  function PositionBefore(cards: map<CardId, Card>, lane: LaneId, next: Option<Key>, moving: CardId): Option<Key> {
    Highest(set p | p in PositionsIn(cards, lane, Some(moving)) && Below(p, next))
  }

  function ActiveIn(cards: map<CardId, Card>, lane: LaneId): set<CardId> {
    set c | c in cards && cards[c].lane == lane && cards[c].archivedAt.None?
  }

  function NextCardId(db: Db): (r: CardId)
    ensures r !in db.cards && r > 0
  {
    if db.cards.Keys == {} then 1 else 1 + MaxId(db.cards.Keys)
  }

  function MaxId(ids: set<CardId>): (r: CardId)
    requires ids != {}
    ensures r in ids && forall c :: c in ids ==> c <= r
  {
    Finite.GreatestExists(ids);
    var m :| m in ids && forall c :: c in ids ==> c <= m;
    m
  }

  // ---- Audit reads ----

  /** The newest event that satisfies `wanted`; the trail is in append order. */
  function Latest(log: seq<Event>, wanted: Body -> bool): (r: Option<Event>) {
    if log == [] then None
    else if wanted(log[|log| - 1].body) then Some(log[|log| - 1])
    else Latest(log[..|log| - 1], wanted)
  }

  const IS_CANCEL: Body -> bool := (b: Body) => b.CardCancelled?
  const IS_ARRIVAL: Body -> bool := (b: Body) => b.CardCancelled? || b.StatusChanged?

  lemma LatestOfAppend(log: seq<Event>, e: Event, wanted: Body -> bool)
    ensures Latest(log + [e], wanted) == if wanted(e.body) then Some(e) else Latest(log, wanted)
  {
    assert (log + [e])[..|log|] == log;
  }

  function LastCancel(log: seq<Event>): Option<Cancellation> {
    var e := Latest(log, IS_CANCEL);
    if e.Some? && e.value.body.CardCancelled? then Some(e.value.body.record) else None
  }

  function LastArrival(log: seq<Event>): Option<Event> {
    Latest(log, IS_ARRIVAL)
  }

  // ---- Tags ----

  function TagNames(tags: map<string, string>, folded: set<string>): set<string>
    requires folded <= tags.Keys
  {
    set f | f in folded :: tags[f]
  }

  // ---- Writes ----

  /** True iff the UNIQUE(lane, position) index rejects the row. */
  predicate Clashes(cards: map<CardId, Card>, card: Card) {
    card.position in PositionsIn(cards, card.lane, Some(card.id))
  }

  /** Writes one existing card row and appends its events. */
  function Save(db: Db, card: Card, now: Time, bodies: seq<Body>): Outcome<Db>
    requires card.id in db.log
  {
    if Clashes(db.cards, card) then Failure(DuplicatePosition)
    else Success(db.(cards := db.cards[card.id := card],
                     log := db.log[card.id := db.log[card.id] + Stamp(db.nextEvent, now, bodies)],
                     nextEvent := db.nextEvent + |bodies|))
  }
}
