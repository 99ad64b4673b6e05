/** The scheduled jobs, each transaction a method on the service's tables: claims, archival, rebalancing. */
module Jobs {
  import opened Wrappers
  import opened Keys
  import opened Domain
  import opened Store
  import opened LaneOrder
  import opened Commands
  import opened Integrity
  import opened Archival
  import opened Runs
  import opened CardService

  // ---- Overdue alerts ----

  predicate IsOverdue(card: Card, today: Day) {
    card.expectedResumeAt.Some? && card.expectedResumeAt.value < today && card.resumeAlertedAt.None?
  }

  /** The overdue cards among `some` are marked. */
  ghost predicate Marked(cards: map<CardId, Card>, cards': map<CardId, Card>, some: set<CardId>, x: Ctx) {
    && cards'.Keys == cards.Keys
    && forall c :: c in cards ==>
         cards'[c] == if c in some && IsOverdue(cards[c], x.today) then cards[c].(resumeAlertedAt := Some(x.now)) else cards[c]
  }

  lemma MarkedTwice(a: map<CardId, Card>, b: map<CardId, Card>, c: map<CardId, Card>, s: set<CardId>, t: set<CardId>, x: Ctx)
    requires Marked(a, b, s, x) && Marked(b, c, t, x)
    ensures Marked(a, c, s + t, x)
  {
  }

  method ClaimCard(tables: Service, x: Ctx, c: CardId)
    requires c in tables.cards
    modifies tables`cards
    ensures Marked(old(tables.cards), tables.cards, {c}, x)
  {
    var card := tables.cards[c];
    if IsOverdue(card, x.today) {
      tables.cards := tables.cards[c := card.(resumeAlertedAt := Some(x.now))];
    }
  }

  /** Marks the overdue cards of one lane, in lane order. */
  method ClaimLane(tables: Service, x: Ctx, lane: LaneId)
    requires PositionsDistinct(tables.cards)
    modifies tables`cards
    ensures Marked(old(tables.cards), tables.cards, ActiveIn(old(tables.cards), lane), x)
  {
    var list := ActiveList(tables.cards, lane);
    ghost var done: set<CardId> := {};
    var i := 0;
    while i < |list|
      invariant 0 <= i <= |list|
      invariant done <= ActiveIn(old(tables.cards), lane) && forall j :: 0 <= j < i ==> list[j] in done
      invariant Marked(old(tables.cards), tables.cards, done, x)
    {
      ghost var cards := tables.cards;
      ClaimCard(tables, x, list[i]);
      MarkedTwice(old(tables.cards), cards, tables.cards, done, {list[i]}, x);
      done := done + {list[i]};
      i := i + 1;
    }
    assert ActiveIn(old(tables.cards), lane) <= done;
  }

  ghost function WaitingOn(db: Db, boards: set<BoardId>): set<CardId> {
    set c | c in db.cards && db.cards[c].archivedAt.None? && db.cards[c].lane in db.lanes
            && db.lanes[db.cards[c].lane].key == WaitingPartsVendor && db.lanes[db.cards[c].lane].board in boards
  }

  lemma WaitingOnOneMore(db: Db, rest: set<BoardId>, board: BoardId)
    requires board in rest && rest <= db.live
    ensures WaitingOn(db, db.live - (rest - {board})) == WaitingOn(db, db.live - rest) + WaitingOn(db, {board})
  {
  }

  lemma MarkedIsClaimed(x: Ctx, db: Db, cards': map<CardId, Card>)
    requires Marked(db.cards, cards', WaitingOn(db, db.live), x)
    ensures ClaimOverdue(x, db) == Success(db.(cards := cards'))
  {
    forall c | c in db.cards
      ensures Due(db, x.today, c) <==> c in WaitingOn(db, db.live) && IsOverdue(db.cards[c], x.today)
    {
    }
    assert ClaimOverdue(x, db).value.cards == cards';
  }

  lemma OnlyMarks(cards: map<CardId, Card>, cards': map<CardId, Card>, some: set<CardId>, x: Ctx)
    requires Marked(cards, cards', some, x)
    ensures forall c :: c in cards ==> cards'[c] == cards[c].(resumeAlertedAt := cards'[c].resumeAlertedAt)
  {
  }

  lemma SamePlaces(lanes: map<LaneId, Lane>, cards: map<CardId, Card>, cards': map<CardId, Card>)
    requires CardsPlaced(lanes, cards) && PositionsDistinct(cards) && cards'.Keys == cards.Keys
    requires forall c :: c in cards ==> cards'[c] == cards[c].(resumeAlertedAt := cards'[c].resumeAlertedAt)
    ensures CardsPlaced(lanes, cards') && PositionsDistinct(cards')
  {
  }

  lemma MarkedKeeps(db: Db, cards': map<CardId, Card>, some: set<CardId>, x: Ctx)
    requires WellFormed(db) && Marked(db.cards, cards', some, x)
    ensures WellFormed(db.(cards := cards'))
  {
    OnlyMarks(db.cards, cards', some, x);
    SamePlaces(db.lanes, db.cards, cards');
  }

  /** The waiting lane of one board, if it has one. */
  lemma LaneIsWaitingOn(db: Db, cards': map<CardId, Card>, some: set<CardId>, x: Ctx, board: BoardId)
    requires WellFormed(db) && Marked(db.cards, cards', some, x)
    ensures WaitingOn(db, {board}) ==
              match LaneByKey(db, board, WaitingPartsVendor)
              case None => {}
              case Some(lane) => ActiveIn(cards', lane)
  {
  }

  /** The waiting lane of a board does not change with the rows of its cards. */
  lemma SameWaitingLane(before: Db, db: Db, board: BoardId)
    requires WellFormed(before) && WellFormed(db) && db.lanes == before.lanes
    ensures LaneByKey(db, board, WaitingPartsVendor) == LaneByKey(before, board, WaitingPartsVendor)
  {
  }

  method ClaimBoard(tables: Service, x: Ctx, board: BoardId, ghost before: Db, ghost done: set<CardId>)
    requires WellFormed(before) && Marked(before.cards, tables.cards, done, x)
    requires tables.State() == before.(cards := tables.cards)
    modifies tables`cards
    ensures Marked(before.cards, tables.cards, done + WaitingOn(before, {board}), x)
  {
    ghost var cards := tables.cards;
    MarkedKeeps(before, cards, done, x);
    LaneIsWaitingOn(before, cards, done, x, board);
    SameWaitingLane(before, tables.State(), board);
    var lane := LaneByKey(tables.State(), board, WaitingPartsVendor);
    if lane.Some? {
      ClaimLane(tables, x, lane.value);
      MarkedTwice(before.cards, cards, tables.cards, done, ActiveIn(cards, lane.value), x);
    }
  }

  /** One transaction claims every due episode of every live board. */
  method ClaimOverdueAlerts(tables: Service, x: Ctx)
    requires tables.Valid()
    modifies tables`cards
    ensures tables.Valid() && ClaimOverdue(x, old(tables.State())) == Success(tables.State())
  {
    ghost var before := tables.State();
    var rest := tables.live;
    while rest != {}
      invariant rest <= before.live && tables.State() == before.(cards := tables.cards)
      invariant Marked(before.cards, tables.cards, WaitingOn(before, before.live - rest), x)
      decreases |rest|
    {
      var board := MaxId(rest);
      ClaimBoard(tables, x, board, before, WaitingOn(before, before.live - rest));
      WaitingOnOneMore(before, rest, board);
      rest := rest - {board};
    }
    assert before.live - rest == before.live;
    AllClaimed(x, before, tables.cards);
  }

  lemma AllClaimed(x: Ctx, before: Db, cards: map<CardId, Card>)
    requires WellFormed(before) && Marked(before.cards, cards, WaitingOn(before, before.live), x)
    ensures var after := before.(cards := cards); WellFormed(after) && ClaimOverdue(x, before) == Success(after)
  {
    MarkedKeeps(before, cards, WaitingOn(before, before.live), x);
    MarkedIsClaimed(x, before, cards);
  }

  // ---- Archival ----

  /** The candidates of a set of boards: distinct, live, in done, and all there are. */
  ghost predicate CandidatesOf(db: Db, boards: set<BoardId>, candidates: seq<Candidate>) {
    && AreCandidates(db, candidates)
    && (forall i :: 0 <= i < |candidates| ==> db.cards[candidates[i].id].board in boards)
    && (forall c :: InLiveDone(db, c) && db.cards[c].board in boards ==> Listed(candidates, c))
  }

  function AsCandidates(list: seq<CardId>, lane: LaneId, now: Time): seq<Candidate> {
    seq(|list|, i requires 0 <= i < |list| => Candidate(list[i], lane, now))
  }

  lemma DoneLaneCandidates(db: Db, board: BoardId, lane: LaneId, list: seq<CardId>, now: Time)
    requires lane in db.lanes && db.lanes[lane].key == Done && db.lanes[lane].board == board && board in db.live
    requires Lists(db.cards, ActiveIn(db.cards, lane), list)
    requires CardsPlaced(db.lanes, db.cards)
    requires forall l :: l in db.lanes && db.lanes[l].board == board && db.lanes[l].key == Done ==> l == lane
    ensures CandidatesOf(db, {board}, AsCandidates(list, lane, now))
  {
    forall c | InLiveDone(db, c) && db.cards[c].board == board
      ensures Listed(AsCandidates(list, lane, now), c)
    {
      assert c in ActiveIn(db.cards, lane);
      var i :| 0 <= i < |list| && list[i] == c;
      assert AsCandidates(list, lane, now)[i].id == c;
    }
  }

  lemma LaneCandidates(db: Db, board: BoardId, now: Time)
    requires WellFormed(db) && board in db.live
    ensures CandidatesOf(db, {board}, match LaneByKey(db, board, Done)
                                      case None => []
                                      case Some(lane) => AsCandidates(ActiveList(db.cards, lane), lane, now))
  {
    var done := LaneByKey(db, board, Done);
    if done.Some? {
      DoneLaneCandidates(db, board, done.value, ActiveList(db.cards, done.value), now);
    }
  }

  lemma MoreCandidates(db: Db, a: set<BoardId>, s: seq<Candidate>, b: set<BoardId>, t: seq<Candidate>)
    requires CandidatesOf(db, a, s) && CandidatesOf(db, b, t) && a !! b
    ensures CandidatesOf(db, a + b, s + t)
  {
    forall c | InLiveDone(db, c) && db.cards[c].board in a + b
      ensures Listed(s + t, c)
    {
      if db.cards[c].board in a {
        var i :| 0 <= i < |s| && s[i].id == c;
        assert (s + t)[i].id == c;
      } else {
        var i :| 0 <= i < |t| && t[i].id == c;
        assert (s + t)[|s| + i].id == c;
      }
    }
  }

  /** The candidate read: the live cards of every live board's done lane. */
  method ReadCandidates(tables: Service, now: Time) returns (candidates: seq<Candidate>)
    requires tables.Valid()
    ensures CandidatesOf(tables.State(), tables.live, candidates)
  {
    candidates := [];
    var rest := tables.live;
    while rest != {}
      invariant rest <= tables.live && CandidatesOf(tables.State(), tables.live - rest, candidates)
      decreases |rest|
    {
      var board := MaxId(rest);
      var done := LaneByKey(tables.State(), board, Done);
      var more := [];
      if done.Some? {
        more := AsCandidates(ActiveList(tables.cards, done.value), done.value, now);
      }
      LaneCandidates(tables.State(), board, now);
      MoreCandidates(tables.State(), tables.live - rest, candidates, {board}, more);
      candidates := candidates + more;
      assert tables.live - (rest - {board}) == tables.live - rest + {board};
      rest := rest - {board};
    }
    assert tables.live - rest == tables.live;
  }

  /** Read again in its own transaction, the candidate is still to be archived. */
  predicate Taken(db: Db, next: Candidate, cutoff: Time) {
    && next.id in db.cards && next.id in db.log && db.cards[next.id].archivedAt.None? && db.cards[next.id].lane == next.lane
    && db.cards[next.id].board in db.live && Late(db, next.id, cutoff)
  }

  lemma ArchiveNextIsSave(db: Db, next: Candidate, cutoff: Time)
    requires WellFormed(db)
    ensures WellFormed(ArchiveNext(db, next, cutoff))
    ensures !Taken(db, next, cutoff) ==> ArchiveNext(db, next, cutoff) == db
    ensures Taken(db, next, cutoff) ==>
              && db.cards[next.id].id == next.id && next.id in db.log
              && Save(db, ArchivedRow(db.cards[next.id], next.at), next.at, [CardArchived]) ==
                 Success(ArchiveNext(db, next, cutoff))
  {
    ArchiveOneKeeps(next.at, db, next.id, next.lane, cutoff);
  }

  method CheckCandidate(tables: Service, next: Candidate, cutoff: Time) returns (taken: bool)
    requires tables.Valid()
    ensures taken == Taken(tables.State(), next, cutoff)
  {
    if next.id !in tables.cards {
      return false;
    }
    var card := tables.cards[next.id];
    if card.archivedAt.Some? || card.lane != next.lane || card.board !in tables.live {
      return false;
    }
    taken := EnteredDoneAt(tables.log[next.id], card.updatedAt) <= cutoff;
  }

  method WriteArchived(tables: Service, next: Candidate)
    requires next.id in tables.cards && next.id in tables.log && tables.cards[next.id].id == next.id
    requires Save(tables.State(), ArchivedRow(tables.cards[next.id], next.at), next.at, [CardArchived]).Success?
    modifies tables
    ensures Success(tables.State()) ==
              Save(old(tables.State()), ArchivedRow(old(tables.cards)[next.id], next.at), next.at, [CardArchived])
  {
    var card := tables.cards[next.id];
    var updated := card.(archivedAt := Some(next.at), version := card.version + 1, updatedAt := next.at);
    var r := tables.SaveCard(updated, next.at, [CardArchived]);
  }

  method ArchiveCandidate(tables: Service, next: Candidate, cutoff: Time) returns (archived: bool)
    requires tables.Valid()
    modifies tables
    ensures tables.Valid() && tables.State() == ArchiveNext(old(tables.State()), next, cutoff)
    ensures archived == Taken(old(tables.State()), next, cutoff)
  {
    ArchiveNextIsSave(tables.State(), next, cutoff);
    archived := CheckCandidate(tables, next, cutoff);
    if archived {
      WriteArchived(tables, next);
    }
  }

  function CountLate(db: Db, candidates: seq<Candidate>, cutoff: Time): nat {
    if candidates == [] then 0
    else CountLate(db, candidates[..|candidates| - 1], cutoff)
         + (if Late(db, candidates[|candidates| - 1].id, cutoff) then 1 else 0)
  }

  lemma TakenIffLate(db: Db, candidates: seq<Candidate>, n: nat, cutoff: Time)
    requires WellFormed(db) && n < |candidates| && AreCandidates(db, candidates)
    ensures Taken(ArchiveAll(db, candidates[..n], cutoff), candidates[n], cutoff) == Late(db, candidates[n].id, cutoff)
  {
    FewerCandidates(db, candidates, n);
    ArchiveAllHandles(db, candidates[..n], cutoff);
    NotYet(db, ArchiveAll(db, candidates[..n], cutoff), candidates, n, cutoff);
  }

  /** The first `i` transactions of the run have led from `before` to `db` and archived `n` cards. */
  ghost predicate GotTo(before: Db, db: Db, list: seq<Candidate>, i: nat, cutoff: Time, n: nat)
    requires WellFormed(before)
  {
    i <= |list| && db == ArchiveAll(before, list[..i], cutoff) && n == CountLate(before, list[..i], cutoff)
  }

  lemma AllDone(before: Db, db: Db, list: seq<Candidate>, cutoff: Time, n: nat)
    requires WellFormed(before) && GotTo(before, db, list, |list|, cutoff, n)
    ensures db == ArchiveAll(before, list, cutoff) && n == CountLate(before, list, cutoff)
  {
    assert list[..|list|] == list;
  }

  method ArchiveNth(tables: Service, ghost before: Db, list: seq<Candidate>, i: nat, cutoff: Time, n: nat) returns (archived: nat)
    requires WellFormed(before) && i < |list| && AreCandidates(before, list)
    requires GotTo(before, tables.State(), list, i, cutoff, n)
    modifies tables
    ensures GotTo(before, tables.State(), list, i + 1, cutoff, archived)
    ensures archived == n + if Late(before, list[i].id, cutoff) then 1 else 0
  {
    TakenIffLate(before, list, i, cutoff);
    assert list[..i + 1][..i] == list[..i];
    var taken := ArchiveCandidate(tables, list[i], cutoff);
    archived := if taken then n + 1 else n;
  }

  method ArchiveList(tables: Service, list: seq<Candidate>, cutoff: Time) returns (archived: nat)
    requires tables.Valid() && AreCandidates(tables.State(), list)
    modifies tables
    ensures tables.State() == ArchiveAll(old(tables.State()), list, cutoff)
    ensures archived == CountLate(old(tables.State()), list, cutoff)
  {
    ghost var before := tables.State();
    archived := 0;
    for i := 0 to |list|
      invariant GotTo(before, tables.State(), list, i, cutoff, archived)
    {
      archived := ArchiveNth(tables, before, list, i, cutoff, archived);
    }
    AllDone(before, tables.State(), list, cutoff, archived);
  }

  /** The nightly job. It reports how many cards it archived. */
  method ArchiveExpired(tables: Service, now: Time, cutoff: Time) returns (archived: nat, ghost candidates: seq<Candidate>)
    requires tables.Valid()
    modifies tables
    ensures tables.Valid()
    ensures CandidatesOf(old(tables.State()), old(tables.live), candidates)
    ensures tables.State() == ArchiveAll(old(tables.State()), candidates, cutoff)
    ensures archived == CountLate(old(tables.State()), candidates, cutoff)
  {
    var list := ReadCandidates(tables, now);
    candidates := list;
    archived := ArchiveList(tables, list, cutoff);
  }

  // ---- Rebalancing ----

  /** Row by row the cards of `list` get the keys of the same index; the unique index never objects. */
  method Rekey(tables: Service, lane: LaneId, list: seq<CardId>, keys: seq<Key>)
    requires PositionsDistinct(tables.cards) && Ascending(keys) && |list| == |keys|
    requires forall j :: 0 <= j < |list| ==>
               list[j] in tables.cards && tables.cards[list[j]].lane == lane && tables.cards[list[j]].id == list[j]
    requires forall j, k :: 0 <= j < k < |list| ==> list[j] != list[k]
    requires forall k, q :: 0 <= k < |keys| && q in PositionsIn(tables.cards, lane, None) ==> q < keys[k]
    modifies tables`cards
    ensures tables.cards == Rekeyed(old(tables.cards), list, keys)
  {
    var i := 0;
    while i < |list|
      invariant 0 <= i <= |list|
      invariant tables.cards == Rekeyed(old(tables.cards), list[..i], keys)
      invariant PositionsDistinct(tables.cards)
    {
      RekeyStep(old(tables.cards), lane, list, keys, i);
      var row := tables.cards[list[i]].(position := keys[i]);
      var ok := tables.UpdateCard(row);
      assert ok;
      i := i + 1;
    }
    assert list[..i] == list;
  }

  lemma RekeyStep(cards: map<CardId, Card>, lane: LaneId, list: seq<CardId>, keys: seq<Key>, i: nat)
    requires PositionsDistinct(cards) && i < |list| && |list| == |keys| && Ascending(keys)
    requires forall j :: 0 <= j < |list| ==> list[j] in cards && cards[list[j]].lane == lane && cards[list[j]].id == list[j]
    requires forall j, k :: 0 <= j < k < |list| ==> list[j] != list[k]
    requires forall k, q :: 0 <= k < |keys| && q in PositionsIn(cards, lane, None) ==> q < keys[k]
    ensures var now := Rekeyed(cards, list[..i], keys);
            && list[i] in now && now[list[i]].id == list[i]
            && var row := now[list[i]].(position := keys[i]);
            && !Clashes(now, row)
            && now[list[i] := row] == Rekeyed(cards, list[..i + 1], keys)
            && PositionsDistinct(now[list[i] := row])
  {
    NotRekeyedYet(cards, lane, list, keys, i);
    RekeyedKeeps(cards, lane, list[..i + 1], keys);
    assert list[..i + 1][..i] == list[..i];
    var now := Rekeyed(cards, list[..i], keys);
    NoClash(now, now[list[i]].(position := keys[i]));
  }

  lemma NotRekeyedYet(cards: map<CardId, Card>, lane: LaneId, list: seq<CardId>, keys: seq<Key>, i: nat)
    requires PositionsDistinct(cards) && i < |list| && |list| == |keys| && Ascending(keys)
    requires forall j :: 0 <= j < |list| ==> list[j] in cards && cards[list[j]].lane == lane
    requires forall j, k :: 0 <= j < k < |list| ==> list[j] != list[k]
    requires forall k, q :: 0 <= k < |keys| && q in PositionsIn(cards, lane, None) ==> q < keys[k]
    ensures list[i] in Rekeyed(cards, list[..i], keys) && Rekeyed(cards, list[..i], keys)[list[i]] == cards[list[i]]
  {
    RekeyedKeeps(cards, lane, list[..i], keys);
    assert list[i] !in list[..i];
  }

  lemma NoClash(cards: map<CardId, Card>, row: Card)
    requires PositionsDistinct(cards[row.id := row])
    ensures !Clashes(cards, row)
  {
    forall c | c in cards && cards[c].lane == row.lane && c != row.id
      ensures cards[c].position != row.position
    {
      var after := cards[row.id := row];
      assert c in after && row.id in after && after[c] == cards[c] && after[row.id] == row;
    }
  }

  lemma PassIsReady(x: Ctx, db: Db, lane: LaneId)
    requires WellFormed(db)
    ensures var list := ActiveList(db.cards, lane);
            var keys := x.keyGen.after(LastKey(db.cards, lane), |list|);
            && Ascending(keys) && |list| == |keys|
            && (forall j :: 0 <= j < |list| ==>
                  list[j] in db.cards && db.cards[list[j]].lane == lane && db.cards[list[j]].id == list[j])
            && (forall j, k :: 0 <= j < k < |list| ==> list[j] != list[k])
            && (forall k, q :: 0 <= k < |keys| && q in PositionsIn(db.cards, lane, None) ==> q < keys[k])
            && (Outgrown(x, db, lane) ==>
                  Rebalance(x, db, lane) == Success(db.(cards := Rekeyed(db.cards, list, keys))))
  {
    FreshBatch(x, db, lane);
  }

  method RewriteLane(tables: Service, x: Ctx, lane: LaneId)
    requires tables.Valid() && Outgrown(x, tables.State(), lane)
    modifies tables`cards
    ensures Rebalance(x, old(tables.State()), lane) == Success(tables.State())
  {
    PassIsReady(x, tables.State(), lane);
    var list := ActiveList(tables.cards, lane);
    var max := LastKey(tables.cards, lane);
    var keys := x.keyGen.after(max, |list|);
    Rekey(tables, lane, list, keys);
  }

  /** One lane in one transaction: if a live key has outgrown the limit, all live cards get keys above the last one. */
  method RebalanceLane(tables: Service, x: Ctx, lane: LaneId) returns (rebalanced: bool)
    requires tables.Valid()
    modifies tables`cards
    ensures tables.Valid()
    ensures Rebalance(x, old(tables.State()), lane) == Success(tables.State())
    ensures rebalanced == Outgrown(x, old(tables.State()), lane)
  {
    RebalanceKeeps(x, tables.State(), lane);
    rebalanced := Outgrown(x, tables.State(), lane);
    if rebalanced {
      RewriteLane(tables, x, lane);
    }
  }
}
