/** Column administration on the service's tables. */
module LaneAdmin {
  import opened Wrappers
  import Finite
  import opened Domain
  import opened Store
  import opened Commands
  import opened Integrity
  import opened CardService

  const MAX_KEY := 40

  // ---- Key names ----

  function Digit(d: nat): char
    requires d < 10
  {
    '0' + d as char
  }

  function Decimal(n: nat): (s: string)
    ensures |s| > 0
  {
    if n < 10 then [Digit(n)] else Decimal(n / 10) + [Digit(n % 10)]
  }

  function Number(s: string): int {
    if s == [] then 0 else Number(s[..|s| - 1]) * 10 + (s[|s| - 1] as int - '0' as int)
  }

  lemma {:induction false} DecimalReadsBack(n: nat)
    ensures Number(Decimal(n)) == n
  {
    if n < 10 {
      assert Number([]) == 0;
      assert [Digit(n)][..0] == [];
    } else {
      DecimalReadsBack(n / 10);
      assert (Decimal(n / 10) + [Digit(n % 10)])[..|Decimal(n / 10)|] == Decimal(n / 10);
    }
  }

  /** The first name tried is the slug itself, the k-th one carries the suffix k. */
  function Name(base: string, k: nat): string {
    if k <= 1 then base else base + "_" + Decimal(k)
  }

  lemma NameEnds(base: string, k: nat)
    requires k > 1
    ensures |Name(base, k)| > |base| && Name(base, k)[|base| + 1..] == Decimal(k)
  {
  }

  lemma NamesDiffer(base: string, j: nat, k: nat)
    requires 1 <= j < k
    ensures Name(base, j) != Name(base, k)
  {
    DecimalReadsBack(j);
    DecimalReadsBack(k);
    NameEnds(base, k);
    if j > 1 {
      NameEnds(base, j);
    }
  }

  function Accepted(name: string): Outcome<string> {
    if |name| <= MAX_KEY then Success(name) else Failure(InvalidInput)
  }

  ghost predicate FirstFree(base: string, taken: set<string>, k: nat) {
    k >= 1 && Name(base, k) !in taken && forall j :: 1 <= j < k ==> Name(base, j) in taken
  }

  /** `names` are the first `n` names. */
  ghost predicate AreFirst(base: string, names: set<string>, n: nat) {
    && |names| == n
    && (forall j :: 1 <= j <= n ==> Name(base, j) in names)
    && (forall s :: s in names ==> exists j :: 1 <= j <= n && s == Name(base, j))
  }

  lemma NotTriedYet(base: string, names: set<string>, n: nat)
    requires AreFirst(base, names, n)
    ensures Name(base, n + 1) !in names
  {
    if Name(base, n + 1) in names {
      var j :| 1 <= j <= n && Name(base, n + 1) == Name(base, j);
      NamesDiffer(base, j, n + 1);
    }
  }

  lemma OneMoreTried(base: string, names: set<string>, n: nat)
    requires AreFirst(base, names, n)
    ensures Name(base, n + 1) !in names && AreFirst(base, names + {Name(base, n + 1)}, n + 1)
  {
    var next := Name(base, n + 1);
    NotTriedYet(base, names, n);
    forall s | s in names + {next}
      ensures exists j :: 1 <= j <= n + 1 && s == Name(base, j)
    {
      if s in names {
        var j :| 1 <= j <= n && s == Name(base, j);
      }
    }
  }

  /**
   * The first free name, which the key schema rejects when it is too long. The search ends because each taken name
   * is met at most once.
   */
  method UniqueKey(base: string, taken: set<string>) returns (r: Outcome<string>)
    ensures exists k: nat :: FirstFree(base, taken, k) && k <= |taken| + 1 && r == Accepted(Name(base, k))
  {
    var key, suffix := base, 2;
    ghost var tried: set<string> := {};
    while key in taken
      invariant suffix >= 2 && key == Name(base, suffix - 1)
      invariant tried <= taken && AreFirst(base, tried, suffix - 2)
      decreases |taken - tried|
    {
      OneMoreTried(base, tried, suffix - 2);
      assert taken - (tried + {key}) < taken - tried;
      Finite.SubsetIsNoLarger(taken - (tried + {key}), taken - tried);
      tried := tried + {key};
      key := base + "_" + Decimal(suffix);
      suffix := suffix + 1;
    }
    assert FirstFree(base, taken, suffix - 1);
    Finite.SubsetIsNoLarger(tried, taken);
    r := if |key| <= MAX_KEY then Success(key) else Failure(InvalidInput);
  }

  function NameOf(key: LaneKey): string {
    match key
    case Done => "done"
    case InProgress => "in_progress"
    case WaitingPartsVendor => "waiting_parts_vendor"
    case Ready => "ready"
    case Other(slug) => slug
  }

  /** A new column named like a deleted seeded one takes that one's behaviour again. */
  function KeyNamed(slug: string): (key: LaneKey)
    ensures NameOf(key) == slug
  {
    if slug == "done" then Done
    else if slug == "in_progress" then InProgress
    else if slug == "waiting_parts_vendor" then WaitingPartsVendor
    else if slug == "ready" then Ready
    else Other(slug)
  }

  // ---- Columns ----

  function TakenNames(db: Db, board: BoardId): set<string> {
    set l | l in LanesOf(db, board) :: NameOf(db.lanes[l].key)
  }

  /** The key of a new column: the first free name, refused if and only if it is too long. */
  ghost predicate IsChoice(db: Db, board: BoardId, slug: string, r: Outcome<LaneKey>) {
    exists k: nat :: FirstFree(slug, TakenNames(db, board), k)
                     && r == if |Name(slug, k)| <= MAX_KEY then Success(KeyNamed(Name(slug, k))) else Failure(InvalidInput)
  }

  method ChooseKey(tables: Service, board: BoardId, slug: string) returns (r: Outcome<LaneKey>)
    requires tables.Valid()
    ensures IsChoice(tables.State(), board, slug, r)
    ensures r.Success? ==> LaneByKey(tables.State(), board, r.value).None?
  {
    var existing := LanesOf(tables.State(), board);
    var taken := set l | l in existing :: NameOf(tables.lanes[l].key);
    assert taken == TakenNames(tables.State(), board);
    var name := UniqueKey(slug, taken);
    if name.Failure? {
      return Failure(name.error);
    }
    KeyIsFree(tables.State(), board, name.value);
    r := Success(KeyNamed(name.value));
  }

  lemma KeyIsFree(db: Db, board: BoardId, name: string)
    requires WellFormed(db) && name !in TakenNames(db, board)
    ensures LaneByKey(db, board, KeyNamed(name)).None?
  {
    forall l | l in db.lanes && db.lanes[l].board == board
      ensures db.lanes[l].key != KeyNamed(name)
    {
      assert l in LanesOf(db, board);
    }
  }

  method InsertColumn(tables: Service, id: LaneId, lane: Lane, ghost after: Db)
    requires after == AddLane(tables.State(), id, lane) && WellFormed(after)
    modifies tables`lanes, tables`keyEver
    ensures tables.Valid() && tables.State() == after
  {
    tables.lanes := tables.lanes[id := lane];
    tables.keyEver := tables.keyEver[id := lane.key];
  }

  lemma NewColumn(x: Ctx, db: Db, board: BoardId, id: LaneId, key: LaneKey, wipLimit: Option<nat>)
    requires WellFormed(db) && RefuseLaneAdmin(x, db, board).None? && id !in db.keyEver && LaneByKey(db, board, key).None?
    ensures var db' := AddLane(db, id, Lane(board, key, LastLanePosition(db, board) + 1, wipLimit));
            WellFormed(db') && CreateLane(x, db, board, id, key, wipLimit) == Success(db')
  {
    CreateLaneKeeps(x, db, board, id, key, wipLimit);
  }

  method AddColumn(tables: Service, x: Ctx, board: BoardId, id: LaneId, key: LaneKey, wipLimit: Option<nat>)
    requires tables.Valid() && RefuseLaneAdmin(x, tables.State(), board).None? && id !in tables.keyEver
    requires LaneByKey(tables.State(), board, key).None?
    modifies tables`lanes, tables`keyEver
    ensures tables.Valid()
    ensures CreateLane(x, old(tables.State()), board, id, key, wipLimit) == Success(tables.State())
  {
    NewColumn(x, tables.State(), board, id, key, wipLimit);
    var lane := Lane(board, key, LastLanePosition(tables.State(), board) + 1, wipLimit);
    InsertColumn(tables, id, lane, AddLane(tables.State(), id, lane));
  }

  method CreateColumn(tables: Service, x: Ctx, board: BoardId, id: LaneId, slug: string, wipLimit: Option<nat>)
    returns (r: Outcome<LaneKey>)
    requires tables.Valid() && id !in tables.keyEver
    modifies tables`lanes, tables`keyEver
    ensures tables.Valid()
    ensures match RefuseLaneAdmin(x, old(tables.State()), board)
            case Some(e) => r == Failure(e)
            case None => IsChoice(old(tables.State()), board, slug, r)
    ensures match r
            case Failure(_) => tables.State() == old(tables.State())
            case Success(key) => CreateLane(x, old(tables.State()), board, id, key, wipLimit) == Success(tables.State())
  {
    var refusal := RefuseLaneAdmin(x, tables.State(), board);
    if refusal.Some? {
      return Failure(refusal.value);
    }
    r := ChooseKey(tables, board, slug);
    if r.Success? {
      AddColumn(tables, x, board, id, r.value, wipLimit);
    }
  }

  method RemoveColumn(tables: Service, x: Ctx, board: BoardId, id: LaneId) returns (r: Result<(), Error>)
    requires tables.Valid()
    modifies tables`lanes
    ensures tables.Valid()
    ensures match RemoveLane(x, old(tables.State()), board, id)
            case Success(db) => tables.State() == db && r == Success(())
            case Failure(e) => tables.State() == old(tables.State()) && r == Failure(e)
  {
    RemoveLaneKeeps(x, tables.State(), board, id);
    var refusal := RefuseLaneAdmin(x, tables.State(), board);
    if refusal.Some? {
      return Failure(refusal.value);
    }
    var existing := LanesOf(tables.State(), board);
    if id !in existing {
      return Failure(NotFound);
    }
    if |existing| <= 1 {
      return Failure(Conflicting(LastLane));
    }
    if FirstKey(tables.cards, id).Some? {
      return Failure(Conflicting(LaneNotEmpty));
    }
    tables.lanes := tables.lanes - {id};
    r := Success(());
  }

  ghost predicate Positioned(before: map<LaneId, Lane>, after: map<LaneId, Lane>, order: seq<LaneId>, n: nat) {
    && after.Keys == before.Keys && n <= |order|
    && (forall l :: l in before && l !in order[..n] ==> after[l] == before[l])
    && (forall i :: 0 <= i < n && order[i] in before ==> after[order[i]] == before[order[i]].(position := i))
  }

  method WritePositions(tables: Service, order: seq<LaneId>)
    requires forall i :: 0 <= i < |order| ==> order[i] in tables.lanes
    requires forall i, j :: 0 <= i < j < |order| ==> order[i] != order[j]
    modifies tables`lanes
    ensures tables.lanes == map l | l in old(tables.lanes) ::
              if l in order then old(tables.lanes)[l].(position := Rank(order, l)) else old(tables.lanes)[l]
  {
    var i := 0;
    while i < |order|
      invariant Positioned(old(tables.lanes), tables.lanes, order, i)
    {
      assert order[..i + 1] == order[..i] + [order[i]];
      tables.lanes := tables.lanes[order[i] := tables.lanes[order[i]].(position := i)];
      i := i + 1;
    }
    assert order[..i] == order;
    forall l | l in old(tables.lanes) && l in order
      ensures tables.lanes[l].position == Rank(order, l)
    {
      var j :| 0 <= j < |order| && order[j] == l;
      assert order[Rank(order, l)] == l;
    }
  }

  lemma ReorderWrites(x: Ctx, db: Db, board: BoardId, order: seq<LaneId>)
    requires WellFormed(db)
    ensures match ReorderLanes(x, db, board, order)
            case Failure(_) => true
            case Success(db') =>
              && WellFormed(db') && (forall i :: 0 <= i < |order| ==> order[i] in db.lanes)
              && (forall i, j :: 0 <= i < j < |order| ==> order[i] != order[j])
              && db' == db.(lanes := map l | l in db.lanes ::
                   if l in order then db.lanes[l].(position := Rank(order, l)) else db.lanes[l])
  {
    ReorderKeeps(x, db, board, order);
  }

  /** The payload must name every column of the board once. */
  method ReorderColumns(tables: Service, x: Ctx, board: BoardId, order: seq<LaneId>) returns (r: Result<(), Error>)
    requires tables.Valid()
    modifies tables`lanes
    ensures tables.Valid()
    ensures match ReorderLanes(x, old(tables.State()), board, order)
            case Success(db) => tables.State() == db && r == Success(())
            case Failure(e) => tables.State() == old(tables.State()) && r == Failure(e)
  {
    var refusal := RefuseLaneAdmin(x, tables.State(), board);
    if refusal.Some? {
      return Failure(refusal.value);
    }
    if !IsFullOrder(tables.State(), board, order) {
      return Failure(Conflicting(IncompleteOrder));
    }
    ReorderWrites(x, tables.State(), board, order);
    WritePositions(tables, order);
    r := Success(());
  }
}
