/** Runs that reach what the record rule and the arrival lookup cannot rule out by themselves. */
module Scenarios {
  import opened Wrappers
  import opened Keys
  import opened Domain
  import opened Audit
  import opened Store
  import opened Commands
  import opened Integrity
  import opened Records
  import opened Shapes
  import opened Archival
  import opened Runs

  /** An actor whom everything allows. */
  ghost function Anyone(now: Time): Ctx {
    Ctx(now, 0, MIDPOINTS, b => true, (b, a) => Allowed, (b, r) => true, u => true, (u, b) => true, l => true)
  }

  function Tables(lanes: map<LaneId, Lane>): Db {
    Db({0}, lanes, map l | l in lanes :: lanes[l].key, map[], map[], map[], map[], 0)
  }

  const CARD := CreateInput("boiler", "", P1, None, 0, None, None, [])

  lemma NoCards(lanes: map<LaneId, Lane>)
    requires LanesDistinct(lanes)
    ensures WellFormed(Tables(lanes)) && AllTraced(Tables(lanes)) && AllShaped(Tables(lanes))
  {
  }

  // ---- A done column first ----

  const INTAKE := Lane(0, Other("intake"), 0, None)
  const LAST_DONE := Lane(0, Done, 1, None)

  /** The order in which a board is set up, and the one in which its administrator puts the done column first. */
  const BEFORE := Tables(map[1 := INTAKE, 2 := LAST_DONE])
  const AFTER := Tables(map[1 := INTAKE.(position := 1), 2 := LAST_DONE.(position := 0)])

  lemma TwoColumns()
    ensures LanesOf(BEFORE, 0) == {1, 2} == LanesOf(AFTER, 0)
    ensures WellFormed(BEFORE) && AllShaped(BEFORE) && WellFormed(AFTER) && AllShaped(AFTER) && AllTraced(AFTER)
    ensures FirstLane(AFTER, 0) == Some(2)
  {
    NoCards(map[1 := INTAKE, 2 := LAST_DONE]);
    NoCards(map[1 := INTAKE.(position := 1), 2 := LAST_DONE.(position := 0)]);
    assert LanesOf(BEFORE, 0) == {1, 2};
    assert LanesOf(AFTER, 0) == {1, 2};
  }

  lemma DoneGoesFirst(x: Ctx)
    requires x == Anyone(x.now)
    ensures ReorderLanes(x, BEFORE, 0, [2, 1]) == Success(AFTER)
  {
    TwoColumns();
    var order := [2, 1];
    Ranks();
    BothListed();
    assert BEFORE.keyEver == AFTER.keyEver;
    assert (map l | l in BEFORE.lanes ::
              if l in order then BEFORE.lanes[l].(position := Rank(order, l)) else BEFORE.lanes[l]) == AFTER.lanes;
  }

  lemma BothListed()
    requires LanesOf(BEFORE, 0) == {1, 2}
    ensures IsFullOrder(BEFORE, 0, [2, 1])
  {
  }

  lemma Ranks()
    ensures Rank([2, 1], 2) == 0 && Rank([2, 1], 1) == 1
  {
    assert [2, 1][1..] == [1];
    assert Rank([1], 1) == 0;
  }

  /** The record rule holds of the tables, an administrator reorders the columns, and the next creation breaks it. */
  lemma ReorderThenCreateBreaksShape(now: Time)
    ensures WellFormed(BEFORE) && AllShaped(BEFORE) && ReorderLanes(Anyone(now), BEFORE, 0, [2, 1]) == Success(AFTER)
    ensures WellFormed(AFTER) && Create(Anyone(now), AFTER, 0, CARD).Success?
    ensures !AllShaped(Create(Anyone(now), AFTER, 0, CARD).value)
  {
    var x := Anyone(now);
    TwoColumns();
    DoneGoesFirst(x);
    CreateKeeps(x, AFTER, 0, CARD);
    CreateShapedIff(x, AFTER, 0, CARD);
  }

  // ---- Born in done ----

  const EDIT := FieldChanged(TitleChange("boiler", "pump"))
  const RENAME := UpdateInput(Some("pump"), None, None, None, None, None, None, None, None, 1)

  /** The card as it is created: in done, with no resolution. */
  ghost function Born(born: Time): Card {
    Card(1, 0, 2, 0.0, "boiler", "", P1, None, 0, None, None, None, false,
         None, None, None, None, None, None, 1, born, born, None)
  }

  ghost function AfterBirth(born: Time): Db {
    AFTER.(cards := map[1 := Born(born)], log := map[1 := [Event(0, born, Created(Born(born), {}))]],
           cardTags := map[1 := {}], nextEvent := 1)
  }

  ghost function AfterEdit(born: Time, edited: Time): Db {
    AFTER.(cards := map[1 := Edited(Born(born).(title := "pump"), edited)],
           log := map[1 := [Event(0, born, Created(Born(born), {})), Event(1, edited, EDIT)]],
           cardTags := map[1 := {}], nextEvent := 2)
  }

  lemma BirthInDone(born: Time)
    ensures WellFormed(AFTER) && Create(Anyone(born), AFTER, 0, CARD) == Success(AfterBirth(born))
  {
    TwoColumns();
    CreateKeeps(Anyone(born), AFTER, 0, CARD);
    assert PositionsIn(AFTER.cards, 2, None) == {};
    assert NewCard(Anyone(born), AFTER, 0, 2, CARD) == Born(born);
    assert ResolveTags(AFTER.tags, []) == (AFTER.tags, {});
    assert TagNames(AFTER.tags, {}) == {};
    assert Create(Anyone(born), AFTER, 0, CARD) == Insert(AFTER, Born(born), born, AFTER.tags, {});
  }

  /** What the service reads off a trail of a birth in done and an edit. */
  lemma OneEdit(card: Card, tags: set<string>, edit: FieldChange, born: Time, edited: Time)
    ensures var log := [Event(0, born, Created(card, tags)), Event(1, edited, FieldChanged(edit))];
            LastEntry(Done, log) == Some(born) && EnteredDoneAt(log, edited) == edited
  {
    var log := [Event(0, born, Created(card, tags)), Event(1, edited, FieldChanged(edit))];
    assert log[..1] == [log[0]];
    assert log[..1][..0] == [];
    assert Replay(Done, log[..1]).lane == Done && Replay(Done, log).lane == Done;
    assert LastEntry(Done, log[..1]) == Some(born);
    assert Latest(log[..1], IS_ARRIVAL).None?;
  }

  lemma EditAllowed(born: Time, edited: Time)
    requires WellFormed(AfterBirth(born))
    ensures RefuseUpdate(Anyone(edited), AfterBirth(born), 1, RENAME).None?
  {
  }

  lemma Renamed(db: Db, born: Time)
    requires WellFormed(db) && db.cards == map[1 := Born(born)] && db.cardTags == map[1 := {}]
    ensures EditAll(db, 1, RENAME) == Draft(Born(born).(title := "pump"), [EDIT])
  {
  }

  lemma EditInDone(born: Time, edited: Time)
    requires WellFormed(AfterBirth(born))
    ensures Update(Anyone(edited), AfterBirth(born), 1, RENAME) == Success(AfterEdit(born, edited))
  {
    EditAllowed(born, edited);
    Renamed(AfterBirth(born), born);
    EditSaves(born, edited);
    assert AfterBirth(born).cardTags[1 := {}] == AfterBirth(born).cardTags;
  }

  lemma EditSaves(born: Time, edited: Time)
    ensures Save(AfterBirth(born), Edited(Born(born).(title := "pump"), edited), edited, [EDIT])
            == Success(AfterEdit(born, edited))
  {
    var db, row := AfterBirth(born), Edited(Born(born).(title := "pump"), edited);
    assert PositionsIn(db.cards, row.lane, Some(1)) == {};
    assert Stamp(1, edited, [EDIT]) == [Event(1, edited, EDIT)];
    assert db.cards[1 := row] == AfterEdit(born, edited).cards;
    var birth := Event(0, born, Created(Born(born), {}));
    assert db.log[1] == [birth];
    assert [birth] + [Event(1, edited, EDIT)] == [birth, Event(1, edited, EDIT)];
    assert db.log[1 := [birth, Event(1, edited, EDIT)]] == map[1 := [birth, Event(1, edited, EDIT)]];
  }

  /** A card created in a done first column and edited later: the lookup answers with the edit. */
  lemma BornInDoneMisleads(born: Time, edited: Time)
    requires born < edited
    ensures WellFormed(AFTER) && Create(Anyone(born), AFTER, 0, CARD) == Success(AfterBirth(born))
    ensures WellFormed(AfterBirth(born))
            && Update(Anyone(edited), AfterBirth(born), 1, RENAME) == Success(AfterEdit(born, edited))
    ensures var db := AfterEdit(born, edited);
            && InLiveDone(db, 1) && Present(db, 1) && RecordOf(db, 1).bornIn == Done
            && LastEntry(Done, db.log[1]) == Some(born) && EnteredDoneAt(db.log[1], db.cards[1].updatedAt) == edited
  {
    BirthInDone(born);
    CreateKeeps(Anyone(born), AFTER, 0, CARD);
    EditInDone(born, edited);
    OneEdit(Born(born), {}, EDIT.change, born, edited);
  }
}
