/** Entities, audit events and command vocabulary of the board. */
module Domain {
  import opened Wrappers
  import opened Keys

  /** Milliseconds since the epoch. */
  type Time = int
  /** A UTC calendar day, counted from the epoch. */
  type Day = int
  type UserId = nat
  type BoardId = nat
  type LaneId = nat
  type LocationId = nat
  type CardId = nat
  type EventId = nat

  /** The keys that carry workflow behaviour, and every other slug. */
  datatype LaneKey = Done | InProgress | WaitingPartsVendor | Ready | Other(slug: string)

  datatype Lane = Lane(board: BoardId, key: LaneKey, position: int, wipLimit: Option<nat>)

  datatype Resolution = Completed | Cancelled | Declined | Duplicate

  datatype Priority = P0 | P1 | P2

  datatype Card = Card(
    id: CardId,
    board: BoardId,
    lane: LaneId,
    position: Key,
    title: string,
    description: string,
    priority: Priority,
    estimate: Option<nat>,
    reporter: UserId,
    assignee: Option<UserId>,
    location: Option<LocationId>,
    resolution: Option<Resolution>,
    blocked: bool,
    blockedReason: Option<string>,
    blockedAt: Option<Time>,
    waitingReason: Option<string>,
    expectedResumeAt: Option<Day>,
    resumeAlertedAt: Option<Time>,
    workStartedAt: Option<Time>,
    version: nat,
    createdAt: Time,
    updatedAt: Time,
    archivedAt: Option<Time>)

  /** What a waiting card waits for, and until when. */
  datatype Waiting = Waiting(reason: string, resumeAt: Option<Day>)

  /** What a cancellation records, so that a reopen can undo it. */
  datatype Cancellation = Cancellation(resolution: Resolution, priorLane: LaneKey, waiting: Option<Waiting>)

  datatype FieldChange =
    | TitleChange(fromTitle: string, toTitle: string)
    | DescriptionChange(fromDescription: string, toDescription: string)
    | PriorityChange(fromPriority: Priority, toPriority: Priority)
    | EstimateChange(fromEstimate: Option<nat>, toEstimate: Option<nat>)
    | AssigneeChange(fromAssignee: Option<UserId>, toAssignee: Option<UserId>)
    | LocationChange(fromLocation: Option<LocationId>, toLocation: Option<LocationId>)
    | TagsChange(fromTags: set<string>, toTags: set<string>)
    | ReasonChange(fromReason: Option<string>, toReason: Option<string>)
    | ResumeChange(fromResume: Option<Day>, toResume: Option<Day>)

  datatype Body =
    | Created(snapshot: Card, tags: set<string>)
    | StatusChanged(fromLane: LaneKey, toLane: LaneKey, wipLimitExceeded: bool, clearedWaiting: bool)
    | Reordered(lane: LaneKey, prev: Option<CardId>, next: Option<CardId>)
    | FieldChanged(change: FieldChange)
    | BlockRaised(reason: string)
    | BlockCleared
    | CardCancelled(record: Cancellation)
    | Reopened(landedIn: LaneKey)
    | CardArchived
    | Noted // comment and attachment events: they say nothing about the card row

  datatype Event = Event(id: EventId, at: Time, body: Body)

  /** The questions put to the policy engine. */
  datatype Action =
    | ToCreate
    | ToUpdate
    | ToMove(source: LaneKey, target: LaneKey)
    | ToReorder(within: LaneKey)
    | ToCancel
    | ToReopen
    | ToArchive
    | ToDelete(owner: UserId)
    | ToBlock
    | ToUnblock
    | ToNote
    | ToManageLanes
    | ToManageBoards

  datatype Decision = Allowed | Denied | Illegal

  datatype Conflict =
    | StaleVersion
    | StaleNeighbors
    | ReasonUnavailable
    | OnlyWhileWaiting
    | AlreadyTerminal
    | NoDoneLane
    | NotInDone
    | NotInFirstColumn
    | BlockStateUnchanged
    | LastLane
    | LastBoard
    | LaneNotEmpty
    | IncompleteOrder
    | KeyTaken

  datatype Error =
    | NotFound
    | ReadOnlyArchived
    | Conflicting(why: Conflict)
    | PolicyDenied
    | IllegalTransition
    | InvalidInput
    | DuplicatePosition

  type Outcome<T> = Result<T, Error>

  /** ASCII case folding, the fold of the unique tag-name column. */
  function FoldChar(c: char): char {
    if 'A' <= c <= 'Z' then c + 32 as char else c
  }

  function Fold(name: string): string {
    seq(|name|, i requires 0 <= i < |name| => FoldChar(name[i]))
  }
}
