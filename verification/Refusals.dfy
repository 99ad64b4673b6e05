/** What a refusal tells its caller. */
module Refusals {
  import opened Wrappers
  import opened Domain
  import opened Store
  import opened Commands
  import opened Integrity

  /** The board that a command of an actor is about, if it is about one there is. */
  function BoardOf(db: Db, c: Command): Option<BoardId> {
    match c
    case DoCreate(board, _) => Some(board)
    case DoCreateLane(board, _, _, _) => Some(board)
    case DoLimitLane(board, _, _) => Some(board)
    case DoRemoveLane(board, _) => Some(board)
    case DoReorderLanes(board, _) => Some(board)
    case DoUpdate(id, _) => if id in db.cards then Some(db.cards[id].board) else None
    case DoMove(id, _) => if id in db.cards then Some(db.cards[id].board) else None
    case DoCancel(id, _, _) => if id in db.cards then Some(db.cards[id].board) else None
    case DoReopen(id, _) => if id in db.cards then Some(db.cards[id].board) else None
    case DoArchive(id, _) => if id in db.cards then Some(db.cards[id].board) else None
    case DoSetBlocked(id, _, _) => if id in db.cards then Some(db.cards[id].board) else None
    case DoNote(id) => if id in db.cards then Some(db.cards[id].board) else None
    case DoDiscard(id, _) => if id in db.cards then Some(db.cards[id].board) else None
    case _ => None
  }

  /** Commands that an actor gives, on a board or on a card. */
  predicate IsGiven(c: Command) {
    !(c.DoArchiveOne? || c.DoClaim? || c.DoOpenBoard? || c.DoHideBoard? || c.DoForgetLocations? || c.DoRebalance?)
  }

  /** Out of reach is not found: no answer tells a hidden board or card from one that is not there. */
  lemma HiddenIsNotFound(x: Ctx, db: Db, c: Command)
    requires WellFormed(db) && IsGiven(c) && !(c.DoCancel? && c.resolution == Completed)
    requires BoardOf(db, c).None? || BoardOf(db, c).value !in db.live || !x.canAccess(BoardOf(db, c).value)
    ensures Execute(x, db, c) == Failure(NotFound)
  {
  }

  lemma ArchivedUpdate(x: Ctx, db: Db, id: CardId, input: UpdateInput)
    requires WellFormed(db) && Reachable(x, db, id) && db.cards[id].archivedAt.Some?
    ensures Update(x, db, id, input) == Failure(ReadOnlyArchived)
  {
  }

  lemma ArchivedMove(x: Ctx, db: Db, id: CardId, input: MoveInput)
    requires WellFormed(db) && Reachable(x, db, id) && db.cards[id].archivedAt.Some?
    ensures Move(x, db, id, input) == Failure(ReadOnlyArchived)
  {
  }

  lemma ArchivedCancel(x: Ctx, db: Db, id: CardId, resolution: Resolution, version: nat)
    requires WellFormed(db) && Reachable(x, db, id) && db.cards[id].archivedAt.Some? && resolution != Completed
    ensures Cancel(x, db, id, resolution, version) == Failure(ReadOnlyArchived)
  {
  }

  lemma ArchivedArchive(x: Ctx, db: Db, id: CardId, version: nat)
    requires WellFormed(db) && Reachable(x, db, id) && db.cards[id].archivedAt.Some?
    ensures Archive(x, db, id, version) == Failure(ReadOnlyArchived)
  {
  }

  lemma ArchivedSetBlocked(x: Ctx, db: Db, id: CardId, reason: Option<string>, version: nat)
    requires WellFormed(db) && Reachable(x, db, id) && db.cards[id].archivedAt.Some?
    ensures SetBlocked(x, db, id, reason, version) == Failure(ReadOnlyArchived)
  {
  }

  lemma ArchivedNote(x: Ctx, db: Db, id: CardId)
    requires WellFormed(db) && Reachable(x, db, id) && db.cards[id].archivedAt.Some?
    ensures Note(x, db, id) == Failure(ReadOnlyArchived)
  {
  }

  /** The command changes the card as a live one, or adds to its trail. */
  predicate ChangesLiveCard(c: Command, id: CardId) {
    match c
    case DoUpdate(i, _) => i == id
    case DoMove(i, _) => i == id
    case DoCancel(i, resolution, _) => i == id && resolution != Completed
    case DoArchive(i, _) => i == id
    case DoSetBlocked(i, _, _) => i == id
    case DoNote(i) => i == id
    case _ => false
  }

  /** Archived cards are read-only, and whoever is in reach is told so: only a reopen and a discard go past that. */
  lemma ArchivedIsToldSo(x: Ctx, db: Db, c: Command, id: CardId)
    requires WellFormed(db) && ChangesLiveCard(c, id) && Reachable(x, db, id) && db.cards[id].archivedAt.Some?
    ensures Execute(x, db, c).Failure? && Execute(x, db, c).error == ReadOnlyArchived
  {
    if c.DoUpdate? {
      ArchivedUpdate(x, db, id, c.edit);
    } else if c.DoMove? {
      ArchivedMove(x, db, id, c.move);
    } else if c.DoCancel? {
      ArchivedCancel(x, db, id, c.resolution, c.expectedVersion);
    } else if c.DoArchive? {
      ArchivedArchive(x, db, id, c.expectedVersion);
    } else if c.DoSetBlocked? {
      ArchivedSetBlocked(x, db, id, c.reason, c.expectedVersion);
    } else {
      ArchivedNote(x, db, id);
    }
  }

  // ---- The version ----

  lemma StaleUpdate(x: Ctx, db: Db, id: CardId, input: UpdateInput, version: nat)
    requires WellFormed(db) && Update(x, db, id, input.(expectedVersion := version)).Success?
    requires Update(x, db, id, input).Failure?
    ensures Update(x, db, id, input) == Failure(Conflicting(StaleVersion))
  {
    UpdateKeeps(x, db, id, input);
  }

  lemma StaleMove(x: Ctx, db: Db, id: CardId, input: MoveInput, version: nat)
    requires WellFormed(db) && Move(x, db, id, input.(expectedVersion := version)).Success? && Move(x, db, id, input).Failure?
    ensures Move(x, db, id, input) == Failure(Conflicting(StaleVersion))
  {
    MoveKeeps(x, db, id, input);
  }

  lemma StaleCancel(x: Ctx, db: Db, id: CardId, resolution: Resolution, stated: nat, version: nat)
    requires WellFormed(db) && Cancel(x, db, id, resolution, version).Success? && Cancel(x, db, id, resolution, stated).Failure?
    ensures Cancel(x, db, id, resolution, stated) == Failure(Conflicting(StaleVersion))
  {
    CancelKeeps(x, db, id, resolution, stated);
  }

  lemma StaleReopen(x: Ctx, db: Db, id: CardId, stated: nat, version: nat)
    requires WellFormed(db) && Reopen(x, db, id, version).Success? && Reopen(x, db, id, stated).Failure?
    ensures Reopen(x, db, id, stated) == Failure(Conflicting(StaleVersion))
  {
    ReopenKeeps(x, db, id, stated);
  }

  lemma StaleArchive(x: Ctx, db: Db, id: CardId, stated: nat, version: nat)
    requires WellFormed(db) && Archive(x, db, id, version).Success? && Archive(x, db, id, stated).Failure?
    ensures Archive(x, db, id, stated) == Failure(Conflicting(StaleVersion))
  {
    ArchiveKeeps(x, db, id, stated);
  }

  lemma StaleSetBlocked(x: Ctx, db: Db, id: CardId, reason: Option<string>, stated: nat, version: nat)
    requires WellFormed(db) && SetBlocked(x, db, id, reason, version).Success? && SetBlocked(x, db, id, reason, stated).Failure?
    ensures SetBlocked(x, db, id, reason, stated) == Failure(Conflicting(StaleVersion))
  {
    SetBlockedKeeps(x, db, id, reason, stated);
  }

  lemma StaleDiscard(x: Ctx, db: Db, id: CardId, stated: nat, version: nat)
    requires WellFormed(db) && Discard(x, db, id, version).Success? && Discard(x, db, id, stated).Failure?
    ensures Discard(x, db, id, stated) == Failure(Conflicting(StaleVersion))
  {
    DiscardKeeps(x, db, id, stated);
  }

  /** The same command with another version stated. */
  function Stating(c: Command, version: nat): Option<Command> {
    match c
    case DoUpdate(id, input) => Some(DoUpdate(id, input.(expectedVersion := version)))
    case DoMove(id, input) => Some(DoMove(id, input.(expectedVersion := version)))
    case DoCancel(id, resolution, _) => Some(DoCancel(id, resolution, version))
    case DoReopen(id, _) => Some(DoReopen(id, version))
    case DoArchive(id, _) => Some(DoArchive(id, version))
    case DoSetBlocked(id, reason, _) => Some(DoSetBlocked(id, reason, version))
    case DoDiscard(id, _) => Some(DoDiscard(id, version))
    case _ => None
  }

  /** A command that would go through and for its version does not is told so. */
  lemma StaleIsToldSo(x: Ctx, db: Db, c: Command, version: nat)
    requires WellFormed(db) && Stating(c, version).Some? && Execute(x, db, Stating(c, version).value).Success?
    ensures Execute(x, db, c).Failure? ==> Execute(x, db, c) == Failure(Conflicting(StaleVersion))
  {
    if Execute(x, db, c).Failure? {
      match c
      case DoUpdate(id, input) => StaleUpdate(x, db, id, input, version);
      case DoMove(id, input) => StaleMove(x, db, id, input, version);
      case DoCancel(id, resolution, stated) => StaleCancel(x, db, id, resolution, stated, version);
      case DoReopen(id, stated) => StaleReopen(x, db, id, stated, version);
      case DoArchive(id, stated) => StaleArchive(x, db, id, stated, version);
      case DoSetBlocked(id, reason, stated) => StaleSetBlocked(x, db, id, reason, stated, version);
      case DoDiscard(id, stated) => StaleDiscard(x, db, id, stated, version);
    }
  }

  // ---- The policy ----

  /** The same actor with every grant. */
  ghost predicate Freed(x: Ctx, free: Ctx) {
    free == x.(policy := free.policy) && forall board, action :: free.policy(board, action) == Allowed
  }

  predicate SaysNo(e: Error) {
    e == PolicyDenied || e == IllegalTransition
  }

  lemma ForbiddenCreate(x: Ctx, free: Ctx, db: Db, board: BoardId, input: CreateInput)
    requires WellFormed(db) && Freed(x, free)
    requires Create(free, db, board, input).Success? && Create(x, db, board, input).Failure?
    ensures SaysNo(Create(x, db, board, input).error)
  {
    CreateKeeps(x, db, board, input);
  }

  lemma UpdateSaysNo(x: Ctx, free: Ctx, db: Db, id: CardId, input: UpdateInput)
    requires WellFormed(db) && Freed(x, free)
    requires RefuseUpdate(free, db, id, input).None? && RefuseUpdate(x, db, id, input).Some?
    ensures SaysNo(RefuseUpdate(x, db, id, input).value)
  {
  }

  /** An edit that is not refused at the start goes through. */
  lemma UpdateFailsIff(x: Ctx, db: Db, id: CardId, input: UpdateInput)
    requires WellFormed(db)
    ensures Update(x, db, id, input).Failure? <==> RefuseUpdate(x, db, id, input).Some?
    ensures Update(x, db, id, input).Failure? ==>
              Update(x, db, id, input) == Failure(RefuseUpdate(x, db, id, input).value)
  {
    UpdateKeeps(x, db, id, input);
  }

  lemma ForbiddenUpdate(x: Ctx, free: Ctx, db: Db, id: CardId, input: UpdateInput)
    requires WellFormed(db) && Freed(x, free) && Update(free, db, id, input).Success? && Update(x, db, id, input).Failure?
    ensures SaysNo(Update(x, db, id, input).error)
  {
    UpdateFailsIff(free, db, id, input);
    UpdateFailsIff(x, db, id, input);
    UpdateSaysNo(x, free, db, id, input);
  }

  lemma ForbiddenMove(x: Ctx, free: Ctx, db: Db, id: CardId, input: MoveInput)
    requires WellFormed(db) && Freed(x, free) && Move(free, db, id, input).Success? && Move(x, db, id, input).Failure?
    ensures SaysNo(Move(x, db, id, input).error)
  {
    MoveKeeps(x, db, id, input);
  }

  lemma ForbiddenCancel(x: Ctx, free: Ctx, db: Db, id: CardId, resolution: Resolution, version: nat)
    requires WellFormed(db) && Freed(x, free)
    requires Cancel(free, db, id, resolution, version).Success? && Cancel(x, db, id, resolution, version).Failure?
    ensures SaysNo(Cancel(x, db, id, resolution, version).error)
  {
    CancelKeeps(x, db, id, resolution, version);
  }

  lemma ForbiddenReopen(x: Ctx, free: Ctx, db: Db, id: CardId, version: nat)
    requires WellFormed(db) && Freed(x, free)
    requires Reopen(free, db, id, version).Success? && Reopen(x, db, id, version).Failure?
    ensures SaysNo(Reopen(x, db, id, version).error)
  {
    ReopenKeeps(x, db, id, version);
  }

  lemma ForbiddenArchive(x: Ctx, free: Ctx, db: Db, id: CardId, version: nat)
    requires WellFormed(db) && Freed(x, free)
    requires Archive(free, db, id, version).Success? && Archive(x, db, id, version).Failure?
    ensures SaysNo(Archive(x, db, id, version).error)
  {
    ArchiveKeeps(x, db, id, version);
  }

  lemma ForbiddenSetBlocked(x: Ctx, free: Ctx, db: Db, id: CardId, reason: Option<string>, version: nat)
    requires WellFormed(db) && Freed(x, free)
    requires SetBlocked(free, db, id, reason, version).Success? && SetBlocked(x, db, id, reason, version).Failure?
    ensures SaysNo(SetBlocked(x, db, id, reason, version).error)
  {
    SetBlockedKeeps(x, db, id, reason, version);
  }

  lemma ForbiddenDiscard(x: Ctx, free: Ctx, db: Db, id: CardId, version: nat)
    requires WellFormed(db) && Freed(x, free)
    requires Discard(free, db, id, version).Success? && Discard(x, db, id, version).Failure?
    ensures SaysNo(Discard(x, db, id, version).error)
  {
    DiscardKeeps(x, db, id, version);
  }

  lemma ForbiddenNote(x: Ctx, free: Ctx, db: Db, id: CardId)
    requires WellFormed(db) && Freed(x, free) && Note(free, db, id).Success? && Note(x, db, id).Failure?
    ensures SaysNo(Note(x, db, id).error)
  {
    NoteKeeps(x, db, id);
  }

  lemma ForbiddenColumns(x: Ctx, free: Ctx, db: Db, c: Command)
    requires WellFormed(db) && Freed(x, free)
    requires c.DoCreateLane? || c.DoLimitLane? || c.DoRemoveLane? || c.DoReorderLanes?
    requires Execute(free, db, c).Success? && Execute(x, db, c).Failure?
    ensures SaysNo(Execute(x, db, c).error)
  {
  }

  /** A command that would go through with every grant and for the actor's does not is told what the policy said. */
  lemma ForbiddenIsToldSo(x: Ctx, free: Ctx, db: Db, c: Command)
    requires WellFormed(db) && IsGiven(c) && Freed(x, free) && Execute(free, db, c).Success?
    ensures Execute(x, db, c).Failure? ==> SaysNo(Execute(x, db, c).error)
  {
    if Execute(x, db, c).Failure? {
      match c
      case DoCreate(board, input) => ForbiddenCreate(x, free, db, board, input);
      case DoUpdate(id, input) => ForbiddenUpdate(x, free, db, id, input);
      case DoMove(id, input) => ForbiddenMove(x, free, db, id, input);
      case DoCancel(id, resolution, version) => ForbiddenCancel(x, free, db, id, resolution, version);
      case DoReopen(id, version) => ForbiddenReopen(x, free, db, id, version);
      case DoArchive(id, version) => ForbiddenArchive(x, free, db, id, version);
      case DoSetBlocked(id, reason, version) => ForbiddenSetBlocked(x, free, db, id, reason, version);
      case DoNote(id) => ForbiddenNote(x, free, db, id);
      case DoDiscard(id, version) => ForbiddenDiscard(x, free, db, id, version);
      case _ => ForbiddenColumns(x, free, db, c);
    }
  }
}
