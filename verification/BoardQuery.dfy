/**
 * The filtered board. The database returns one list over all lanes, sorted by position, ties between lanes in any
 * order; the service regroups it. Each lane must come out as its own list with the filter applied.
 */
module BoardQuery {
  import opened Wrappers
  import opened Domain
  import opened Store
  import opened LaneOrder
  import opened Commands
  import BusinessTime
  import Locations

  datatype Scope = Active | Archived | All

  datatype BoardFilter = BoardFilter(
    priorities: set<Priority>,
    assignees: set<UserId>,
    reporters: set<UserId>,
    tags: set<string>,
    locations: set<LocationId>,
    scope: Scope,
    q: string,
    overdue: bool)

  const EMPTY_FILTER := BoardFilter({}, {}, {}, {}, {}, Active, "", false)

  /** What a query sees besides the filter: the tables, the clock, the business hours, and how text matches. */
  datatype View = View(
    db: Db,
    board: BoardId,
    locations: Locations.Rows,
    now: Time,
    hours: BusinessTime.Hours,
    matchesText: (Card, string) -> bool)

  ghost predicate ValidView(v: View) {
    WellFormed(v.db) && Locations.Tree(v.locations) && BusinessTime.ValidHours(v.hours)
  }

  // ---- The facets ----

  predicate InScope(card: Card, scope: Scope) {
    match scope
    case Active => card.archivedAt.None?
    case Archived => card.archivedAt.Some?
    case All => true
  }

  /** Every selected location with its whole subtree. */
  ghost function Expanded(v: View, roots: set<LocationId>): set<LocationId>
    requires Locations.Tree(v.locations)
  {
    set r, l | r in roots && l in Locations.Subtree(v.locations, r) :: l
  }

  ghost predicate AtLocation(v: View, card: Card, roots: set<LocationId>)
    requires Locations.Tree(v.locations)
  {
    roots != {} ==> card.location.Some? && exists r :: r in roots && card.location.value in Locations.Subtree(v.locations, r)
  }

  predicate Tagged(db: Db, c: CardId, tags: set<string>) {
    tags != {} ==> c in db.cardTags && exists t :: t in tags && Fold(t) in db.cardTags[c]
  }

  /** The conditions that go into the query. */
  ghost predicate Selected(v: View, f: BoardFilter, c: CardId)
    requires ValidView(v)
  {
    && c in v.db.cards
    && var card := v.db.cards[c];
    && card.board == v.board && InScope(card, f.scope)
    && (f.priorities != {} ==> card.priority in f.priorities)
    && (f.assignees != {} ==> card.assignee.Some? && card.assignee.value in f.assignees)
    && (f.reporters != {} ==> card.reporter in f.reporters)
    && Tagged(v.db, c, f.tags) && AtLocation(v, card, f.locations)
    && (f.q != "" ==> v.matchesText(card, f.q))
    && (f.overdue ==> card.workStartedAt.Some? && card.estimate.Some?)
  }

  ghost predicate Late(v: View, c: CardId) {
    c in v.db.cards && BusinessTime.IsWorkOverdue(v.db.cards[c].workStartedAt, v.db.cards[c].estimate, v.now, v.hours)
  }

  /** The whole filter: the business-time verdict is added by the service. */
  ghost predicate Matches(v: View, f: BoardFilter, c: CardId)
    requires ValidView(v)
  {
    Selected(v, f, c) && (f.overdue ==> Late(v, c))
  }

  ghost function MatchingIn(v: View, f: BoardFilter, lane: LaneId): set<CardId>
    requires ValidView(v)
  {
    set c | c in v.db.cards && v.db.cards[c].lane == lane && Matches(v, f, c)
  }

  /** What a reader should see of one lane: its cards in order, those that match. */
  ghost function FilteredLane(v: View, f: BoardFilter, lane: LaneId): (list: seq<CardId>)
    requires ValidView(v)
    ensures Lists(v.db.cards, MatchingIn(v, f, lane), list)
  {
    Ordered(v.db.cards, MatchingIn(v, f, lane))
  }

  datatype LaneSnapshot = LaneSnapshot(lane: LaneId, cards: seq<CardId>, wipLimitExceeded: bool)

  // ---- What the database returns ----

  ghost predicate InBoardOrder(db: Db, board: BoardId, lanes: seq<LaneId>) {
    && (forall i :: 0 <= i < |lanes| ==> lanes[i] in LanesOf(db, board))
    && (forall l :: l in LanesOf(db, board) ==> l in lanes)
    && (forall i, j :: 0 <= i < j < |lanes| ==> db.lanes[lanes[i]].position < db.lanes[lanes[j]].position)
  }

  ghost predicate ByPosition(cards: map<CardId, Card>, rows: seq<CardId>) {
    && (forall i :: 0 <= i < |rows| ==> rows[i] in cards)
    && (forall i, j :: 0 <= i < j < |rows| ==> rows[i] != rows[j] && cards[rows[i]].position <= cards[rows[j]].position)
  }

  ghost predicate IsResult(v: View, f: BoardFilter, rows: seq<CardId>)
    requires ValidView(v)
  {
    ByPosition(v.db.cards, rows) && forall c :: c in rows <==> Selected(v, f, c)
  }

  // ---- Regrouping ----

  function InLane(cards: map<CardId, Card>, rows: seq<CardId>, lane: LaneId): seq<CardId> {
    if rows == [] then []
    else
      var n := |rows| - 1;
      InLane(cards, rows[..n], lane) +
      (if rows[n] in cards && cards[rows[n]].lane == lane then [rows[n]] else [])
  }

  ghost function LaneRows(cards: map<CardId, Card>, rows: seq<CardId>, lane: LaneId): set<CardId> {
    set c | c in rows && c in cards && cards[c].lane == lane
  }

  /** Rows that are sorted across lanes are strictly sorted within one. */
  lemma {:induction false} InLaneLists(cards: map<CardId, Card>, rows: seq<CardId>, lane: LaneId)
    requires PositionsDistinct(cards) && ByPosition(cards, rows)
    ensures Lists(cards, LaneRows(cards, rows, lane), InLane(cards, rows, lane))
    decreases |rows|
  {
    if rows != [] {
      var n := |rows| - 1;
      InLaneLists(cards, rows[..n], lane);
      InLaneGrows(cards, rows[..n], rows[n], lane, InLane(cards, rows[..n], lane));
      assert rows == rows[..n] + [rows[n]];
    }
  }

  lemma InLaneGrows(cards: map<CardId, Card>, front: seq<CardId>, last: CardId, lane: LaneId, list: seq<CardId>)
    requires PositionsDistinct(cards) && ByPosition(cards, front + [last])
    requires Lists(cards, LaneRows(cards, front, lane), list)
    ensures Lists(cards, LaneRows(cards, front + [last], lane),
                  list + (if last in cards && cards[last].lane == lane then [last] else []))
  {
    var rows := front + [last];
    assert rows[|front|] == last;
    forall c | c in front
      ensures c in cards && c != last && cards[c].position <= cards[last].position
    {
      var i :| 0 <= i < |front| && front[i] == c;
      assert rows[i] == c;
    }
    if cards[last].lane == lane {
      forall i | 0 <= i < |list|
        ensures cards[list[i]].position < cards[last].position
      {
        assert list[i] in LaneRows(cards, front, lane);
      }
      assert LaneRows(cards, rows, lane) == LaneRows(cards, front, lane) + {last};
    } else {
      assert LaneRows(cards, rows, lane) == LaneRows(cards, front, lane);
    }
  }

  method Regroup(cards: map<CardId, Card>, rows: seq<CardId>) returns (byLane: map<LaneId, seq<CardId>>)
    requires ByPosition(cards, rows)
    ensures forall l :: (if l in byLane then byLane[l] else []) == InLane(cards, rows, l)
  {
    byLane := map[];
    var i := 0;
    while i < |rows|
      invariant 0 <= i <= |rows|
      invariant forall l :: (if l in byLane then byLane[l] else []) == InLane(cards, rows[..i], l)
    {
      assert rows[..i + 1][..i] == rows[..i];
      var lane := cards[rows[i]].lane;
      var list := if lane in byLane then byLane[lane] else [];
      byLane := byLane[lane := list + [rows[i]]];
      i := i + 1;
    }
    assert rows[..i] == rows;
  }

  // ---- The two boards ----

  method BoardSnapshot(db: Db, board: BoardId, lanes: seq<LaneId>) returns (snapshots: seq<LaneSnapshot>)
    requires WellFormed(db) && InBoardOrder(db, board, lanes)
    ensures |snapshots| == |lanes|
    ensures forall i :: 0 <= i < |lanes| ==>
              snapshots[i] == LaneSnapshot(lanes[i], ActiveList(db.cards, lanes[i]), Breached(db, lanes[i]))
  {
    snapshots := [];
    var i := 0;
    while i < |lanes|
      invariant 0 <= i <= |lanes| && |snapshots| == i
      invariant forall j :: 0 <= j < i ==>
                  snapshots[j] == LaneSnapshot(lanes[j], ActiveList(db.cards, lanes[j]), Breached(db, lanes[j]))
    {
      var rows := ActiveList(db.cards, lanes[i]);
      var limit := db.lanes[lanes[i]].wipLimit;
      CountOfList(db.cards, ActiveIn(db.cards, lanes[i]), rows);
      snapshots := snapshots + [LaneSnapshot(lanes[i], rows, limit.Some? && |rows| > limit.value)];
      i := i + 1;
    }
  }

  lemma {:induction false} CountOfList(cards: map<CardId, Card>, ids: set<CardId>, list: seq<CardId>)
    requires Lists(cards, ids, list)
    ensures |list| == |ids|
    decreases |list|
  {
    if list == [] {
      assert ids == {};
    } else {
      TailLists(cards, ids, list);
      CountOfList(cards, ids - {list[0]}, list[1..]);
    }
  }

  method IsLate(v: View, c: CardId) returns (late: bool)
    requires c in v.db.cards && v.db.cards[c].workStartedAt.Some? && v.db.cards[c].estimate.Some?
    requires BusinessTime.ValidHours(v.hours)
    ensures late == Late(v, c)
  {
    var card := v.db.cards[c];
    var worked := BusinessTime.BusinessMinutesBetween(card.workStartedAt.value, v.now, v.hours);
    late := worked >= card.estimate.value as real;
  }

  /** The verdict that the database cannot give, over the rows it returned. */
  method KeepOverdue(v: View, rows: seq<CardId>) returns (kept: seq<CardId>)
    requires ValidView(v) && ByPosition(v.db.cards, rows)
    requires forall c :: c in rows ==> v.db.cards[c].workStartedAt.Some? && v.db.cards[c].estimate.Some?
    ensures ByPosition(v.db.cards, kept)
    ensures forall c :: c in kept <==> c in rows && Late(v, c)
  {
    kept := [];
    var i := 0;
    while i < |rows|
      invariant 0 <= i <= |rows| && KeptOf(v, rows, i, kept)
    {
      assert rows[i] in rows;
      var late := IsLate(v, rows[i]);
      KeepOneMore(v, rows, i, kept);
      if late {
        kept := kept + [rows[i]];
      }
      i := i + 1;
    }
  }

  /** The late ones of the first `i` rows, in their order. */
  ghost predicate KeptOf(v: View, rows: seq<CardId>, i: nat, kept: seq<CardId>)
    requires i <= |rows|
  {
    && ByPosition(v.db.cards, kept)
    && (forall c :: c in kept ==> Late(v, c) && exists j :: 0 <= j < i && rows[j] == c)
    && (forall j :: 0 <= j < i ==> Late(v, rows[j]) ==> rows[j] in kept)
  }

  lemma KeepOneMore(v: View, rows: seq<CardId>, i: nat, kept: seq<CardId>)
    requires i < |rows| && ByPosition(v.db.cards, rows) && KeptOf(v, rows, i, kept)
    ensures KeptOf(v, rows, i + 1, if Late(v, rows[i]) then kept + [rows[i]] else kept)
  {
    AppendByPosition(v.db.cards, rows, kept, i);
  }

  lemma AppendByPosition(cards: map<CardId, Card>, rows: seq<CardId>, kept: seq<CardId>, i: nat)
    requires ByPosition(cards, rows) && ByPosition(cards, kept) && i < |rows|
    requires forall c :: c in kept ==> exists j :: 0 <= j < i && rows[j] == c
    ensures ByPosition(cards, kept + [rows[i]])
  {
    forall k | 0 <= k < |kept|
      ensures kept[k] != rows[i] && cards[kept[k]].position <= cards[rows[i]].position
    {
      assert kept[k] in kept;
    }
  }

  method MatchingRows(v: View, f: BoardFilter, result: seq<CardId>) returns (rows: seq<CardId>)
    requires ValidView(v) && IsResult(v, f, result)
    ensures ByPosition(v.db.cards, rows) && forall c :: c in rows <==> Matches(v, f, c)
  {
    rows := result;
    if f.overdue {
      rows := KeepOverdue(v, rows);
    }
  }

  method Assemble(db: Db, board: BoardId, lanes: seq<LaneId>, byLane: map<LaneId, seq<CardId>>)
    returns (snapshots: seq<LaneSnapshot>)
    requires InBoardOrder(db, board, lanes)
    ensures |snapshots| == |lanes|
    ensures forall i :: 0 <= i < |lanes| ==>
              snapshots[i] == LaneSnapshot(lanes[i], if lanes[i] in byLane then byLane[lanes[i]] else [],
                                           Breached(db, lanes[i]))
  {
    snapshots := [];
    var i := 0;
    while i < |lanes|
      invariant 0 <= i <= |lanes| && |snapshots| == i
      invariant forall j :: 0 <= j < i ==>
                  snapshots[j] == LaneSnapshot(lanes[j], if lanes[j] in byLane then byLane[lanes[j]] else [],
                                               Breached(db, lanes[j]))
    {
      var list := if lanes[i] in byLane then byLane[lanes[i]] else [];
      // The marker belongs to the lane, not to the filtered view.
      var limit, active := db.lanes[lanes[i]].wipLimit, ActiveCount(db, lanes[i]);
      snapshots := snapshots + [LaneSnapshot(lanes[i], list, limit.Some? && active > limit.value)];
      i := i + 1;
    }
  }

  method FilteredBoard(v: View, f: BoardFilter, lanes: seq<LaneId>, result: seq<CardId>)
    returns (snapshots: seq<LaneSnapshot>)
    requires ValidView(v) && InBoardOrder(v.db, v.board, lanes) && IsResult(v, f, result)
    ensures |snapshots| == |lanes|
    ensures forall i :: 0 <= i < |lanes| ==>
              snapshots[i] == LaneSnapshot(lanes[i], FilteredLane(v, f, lanes[i]), Breached(v.db, lanes[i]))
  {
    var rows := MatchingRows(v, f, result);
    var byLane := Regroup(v.db.cards, rows);
    snapshots := Assemble(v.db, v.board, lanes, byLane);
    forall i | 0 <= i < |lanes|
      ensures (if lanes[i] in byLane then byLane[lanes[i]] else []) == FilteredLane(v, f, lanes[i])
    {
      RegroupedIsFiltered(v, f, rows, lanes[i]);
    }
  }

  lemma RegroupedIsFiltered(v: View, f: BoardFilter, rows: seq<CardId>, lane: LaneId)
    requires ValidView(v) && ByPosition(v.db.cards, rows) && forall c :: c in rows <==> Matches(v, f, c)
    ensures InLane(v.db.cards, rows, lane) == FilteredLane(v, f, lane)
  {
    InLaneLists(v.db.cards, rows, lane);
    assert LaneRows(v.db.cards, rows, lane) == MatchingIn(v, f, lane);
    OnlyOneOrder(v.db.cards, MatchingIn(v, f, lane), InLane(v.db.cards, rows, lane), FilteredLane(v, f, lane));
  }

  // ---- What that means ----

  /** The empty filter shows the live board. */
  lemma EmptyFilterIsSnapshot(v: View, lane: LaneId)
    requires ValidView(v) && lane in LanesOf(v.db, v.board)
    ensures FilteredLane(v, EMPTY_FILTER, lane) == ActiveList(v.db.cards, lane)
  {
    forall c | c in v.db.cards && v.db.cards[c].lane == lane
      ensures Matches(v, EMPTY_FILTER, c) <==> v.db.cards[c].archivedAt.None?
    {
    }
    assert MatchingIn(v, EMPTY_FILTER, lane) == ActiveIn(v.db.cards, lane);
    OnlyOneOrder(v.db.cards, ActiveIn(v.db.cards, lane), FilteredLane(v, EMPTY_FILTER, lane), ActiveList(v.db.cards, lane));
  }

  // The meaning of a filter, from single values up.

  const NO_FILTER := EMPTY_FILTER.(scope := All)

  lemma OnePersonMeans(v: View, c: CardId)
    requires ValidView(v) && c in v.db.cards && v.db.cards[c].board == v.board
    ensures forall u :: Matches(v, NO_FILTER.(assignees := {u}), c) <==> v.db.cards[c].assignee == Some(u)
    ensures forall u :: Matches(v, NO_FILTER.(reporters := {u}), c) <==> v.db.cards[c].reporter == u
  {
  }

  lemma OnePlaceMeans(v: View, c: CardId, l: LocationId)
    requires ValidView(v) && c in v.db.cards && v.db.cards[c].board == v.board
    ensures var place := v.db.cards[c].location;
            Matches(v, NO_FILTER.(locations := {l}), c) <==>
              place.Some? && place.value in Locations.Subtree(v.locations, l)
  {
  }

  lemma OneTagMeans(v: View, c: CardId, t: string)
    requires ValidView(v) && c in v.db.cards && v.db.cards[c].board == v.board
    ensures Matches(v, NO_FILTER.(tags := {t}), c) <==> Fold(t) in v.db.cardTags[c]
  {
  }

  /** A filter with a single value in a single facet. */
  lemma OneValueMeans(v: View, c: CardId, p: Priority, u: UserId, t: string, l: LocationId, q: string)
    requires ValidView(v) && c in v.db.cards && v.db.cards[c].board == v.board
    ensures var card := v.db.cards[c];
            && Matches(v, NO_FILTER, c)
            && (Matches(v, NO_FILTER.(priorities := {p}), c) <==> card.priority == p)
            && (Matches(v, NO_FILTER.(assignees := {u}), c) <==> card.assignee == Some(u))
            && (Matches(v, NO_FILTER.(reporters := {u}), c) <==> card.reporter == u)
            && (Matches(v, NO_FILTER.(tags := {t}), c) <==> Fold(t) in v.db.cardTags[c])
            && (Matches(v, NO_FILTER.(locations := {l}), c) <==>
                  card.location.Some? && card.location.value in Locations.Subtree(v.locations, l))
            && (q != "" ==> (Matches(v, NO_FILTER.(q := q), c) <==> v.matchesText(card, q)))
            && (Matches(v, NO_FILTER.(overdue := true), c) <==>
                  card.workStartedAt.Some? && card.estimate.Some?
                  && BusinessTime.IsWorkOverdue(card.workStartedAt, card.estimate, v.now, v.hours))
            && (Matches(v, NO_FILTER.(scope := Active), c) <==> card.archivedAt.None?)
            && (Matches(v, NO_FILTER.(scope := Archived), c) <==> card.archivedAt.Some?)
  {
    OnePersonMeans(v, c);
    OnePlaceMeans(v, c, l);
    OneTagMeans(v, c, t);
  }

  /** A further value in a facet lets more cards through: those that match it too. */
  lemma ValuesWiden(v: View, c: CardId, a: BoardFilter, b: BoardFilter)
    requires ValidView(v)
    ensures a.priorities != {} && b.priorities != {} ==>
              (Matches(v, NO_FILTER.(priorities := a.priorities + b.priorities), c) <==>
                 Matches(v, NO_FILTER.(priorities := a.priorities), c) || Matches(v, NO_FILTER.(priorities := b.priorities), c))
    ensures a.assignees != {} && b.assignees != {} ==>
              (Matches(v, NO_FILTER.(assignees := a.assignees + b.assignees), c) <==>
                 Matches(v, NO_FILTER.(assignees := a.assignees), c) || Matches(v, NO_FILTER.(assignees := b.assignees), c))
    ensures a.reporters != {} && b.reporters != {} ==>
              (Matches(v, NO_FILTER.(reporters := a.reporters + b.reporters), c) <==>
                 Matches(v, NO_FILTER.(reporters := a.reporters), c) || Matches(v, NO_FILTER.(reporters := b.reporters), c))
    ensures a.tags != {} && b.tags != {} ==>
              (Matches(v, NO_FILTER.(tags := a.tags + b.tags), c) <==>
                 Matches(v, NO_FILTER.(tags := a.tags), c) || Matches(v, NO_FILTER.(tags := b.tags), c))
    ensures a.locations != {} && b.locations != {} ==>
              (Matches(v, NO_FILTER.(locations := a.locations + b.locations), c) <==>
                 Matches(v, NO_FILTER.(locations := a.locations), c) || Matches(v, NO_FILTER.(locations := b.locations), c))
  {
  }

  /** A further facet lets fewer through: a card matches a filter if and only if it matches each facet by itself. */
  lemma FacetsNarrow(v: View, f: BoardFilter, c: CardId)
    requires ValidView(v)
    ensures Matches(v, f, c) <==>
              && Matches(v, NO_FILTER.(priorities := f.priorities), c) && Matches(v, NO_FILTER.(assignees := f.assignees), c)
              && Matches(v, NO_FILTER.(reporters := f.reporters), c) && Matches(v, NO_FILTER.(tags := f.tags), c)
              && Matches(v, NO_FILTER.(locations := f.locations), c) && Matches(v, NO_FILTER.(q := f.q), c)
              && Matches(v, NO_FILTER.(overdue := f.overdue), c) && Matches(v, NO_FILTER.(scope := f.scope), c)
  {
  }

  ghost function MatchingOf(v: View, f: BoardFilter, ids: set<CardId>): set<CardId>
    requires ValidView(v)
  {
    set c | c in ids && Matches(v, f, c)
  }

  ghost function Keep(v: View, f: BoardFilter, list: seq<CardId>): seq<CardId>
    requires ValidView(v)
  {
    if list == [] then [] else (if Matches(v, f, list[0]) then [list[0]] else []) + Keep(v, f, list[1..])
  }

  lemma {:induction false} KeepLists(v: View, f: BoardFilter, ids: set<CardId>, list: seq<CardId>)
    requires ValidView(v) && Lists(v.db.cards, ids, list)
    ensures Lists(v.db.cards, MatchingOf(v, f, ids), Keep(v, f, list))
    decreases |list|
  {
    if list != [] {
      TailLists(v.db.cards, ids, list);
      KeepLists(v, f, ids - {list[0]}, list[1..]);
      KeepHead(v, f, ids, list, Keep(v, f, list[1..]));
    }
  }

  lemma KeepHead(v: View, f: BoardFilter, ids: set<CardId>, list: seq<CardId>, kept: seq<CardId>)
    requires ValidView(v) && Lists(v.db.cards, ids, list) && list != []
    requires Lists(v.db.cards, MatchingOf(v, f, ids - {list[0]}), kept)
    ensures Lists(v.db.cards, MatchingOf(v, f, ids), (if Matches(v, f, list[0]) then [list[0]] else []) + kept)
  {
    var rest, all := MatchingOf(v, f, ids - {list[0]}), MatchingOf(v, f, ids);
    HeadIsBelow(v.db.cards, ids, list);
    if Matches(v, f, list[0]) {
      assert all == rest + {list[0]};
      HeadedLists(v.db.cards, rest, kept, list[0]);
    } else {
      assert all == rest;
      assert [] + kept == kept;
    }
  }

  lemma HeadIsBelow(cards: map<CardId, Card>, ids: set<CardId>, list: seq<CardId>)
    requires Lists(cards, ids, list) && list != []
    ensures forall c :: c in ids && c != list[0] ==> cards[list[0]].position < cards[c].position
  {
    forall c | c in ids && c != list[0]
      ensures cards[list[0]].position < cards[c].position
    {
      var i :| 0 <= i < |list| && list[i] == c;
    }
  }

  lemma HeadedLists(cards: map<CardId, Card>, rest: set<CardId>, kept: seq<CardId>, head: CardId)
    requires Lists(cards, rest, kept) && head in cards && forall c :: c in rest ==> cards[head].position < cards[c].position
    ensures Lists(cards, rest + {head}, [head] + kept)
  {
    assert forall i :: 0 <= i < |kept| ==> kept[i] in rest;
  }

  /** A filtered lane is the lane's own list with the other cards left out: filtering reorders nothing. */
  lemma FilteredLaneKeepsOrder(v: View, f: BoardFilter, lane: LaneId)
    requires ValidView(v)
    ensures FilteredLane(v, f, lane) == Keep(v, f, LaneList(v.db.cards, lane))
  {
    var cards := v.db.cards;
    KeepLists(v, f, CardsIn(cards, lane), LaneList(cards, lane));
    assert MatchingOf(v, f, CardsIn(cards, lane)) == MatchingIn(v, f, lane);
    OnlyOneOrder(cards, MatchingIn(v, f, lane), FilteredLane(v, f, lane), Keep(v, f, LaneList(cards, lane)));
  }

  // ---- Expanding locations ----

  lemma OneMoreRoot(v: View, done: set<LocationId>, root: LocationId)
    requires Locations.Tree(v.locations)
    ensures Expanded(v, done + {root}) == Expanded(v, done) + Locations.Subtree(v.locations, root)
  {
  }

  method SubtreeSet(ghost rows: Locations.Rows, root: LocationId, index: map<LocationId, seq<LocationId>>)
    returns (subtree: set<LocationId>)
    requires Locations.Tree(rows) && Locations.Indexes(rows, index)
    ensures subtree == Locations.Subtree(rows, root)
  {
    var ids := Locations.SubtreeIds(rows, root, index);
    subtree := set l | l in ids;
  }

  /** One index, one walk per distinct root, one union. */
  method ExpandLocations(v: View, index: map<LocationId, seq<LocationId>>, roots: set<LocationId>)
    returns (expanded: set<LocationId>)
    requires Locations.Tree(v.locations) && Locations.Indexes(v.locations, index)
    ensures expanded == Expanded(v, roots)
  {
    expanded := {};
    var rest := roots;
    ghost var done: set<LocationId> := {};
    while rest != {}
      invariant rest + done == roots && expanded == Expanded(v, done)
      decreases |rest|
    {
      var root := MaxId(rest);
      var more := SubtreeSet(v.locations, root, index);
      OneMoreRoot(v, done, root);
      expanded := expanded + more;
      rest, done := rest - {root}, done + {root};
    }
    assert done == roots;
  }

  /** The union is what the facet means: the card sits in the subtree of some selected location. */
  lemma ExpandedIsFacet(v: View, card: Card, roots: set<LocationId>)
    requires Locations.Tree(v.locations)
    ensures AtLocation(v, card, roots) <==>
              (roots != {} ==> card.location.Some? && card.location.value in Expanded(v, roots))
  {
    if card.location.Some? && card.location.value in Expanded(v, roots) {
      var r, l :| r in roots && l in Locations.Subtree(v.locations, r) && l == card.location.value;
    }
  }
}
