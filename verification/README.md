# Verified model of the work-order board

A Dafny model of the board's server: the card lifecycle with its audit log and ordered lanes, the unit of work that
serialises it, password attempts and sessions, the board queries, the location tree, and attachments.

`dafny verify dfyconfig.toml` verifies everything.

## How it is built

| part | modules | what is proved |
|---|---|---|
| tables and commands | `Domain`, `Keys`, `Store`, `Commands` | the specification: every command as a function of the tables, with its refusals in order |
| the service | `Promises`, `CardService`, `Jobs`, `LaneAdmin` | the same commands as methods that read and write table fields, each tied to its specification and to what it promises about stored rows, lists, versions and trails |
| integrity and order | `Integrity`, `LaneOrder`, `Placement` | schema constraints are kept; key arithmetic is list insertion |
| answers and rows | `Acceptance`, `Refusals`, `Writes` | when exactly a command succeeds; what a refusal tells; what a success stores, told from the request |
| audit log and record shape | `Audit`, `Records`, `Trails`, `Tracking`, `Shapes` | trails replay to rows; fields fit the lane |
| runs | `Effects`, `Runs`, `Restoring`, `Alerts`, `Archival`, `Scenarios` | statements over all sequences of commands, and runs that reach the exceptions |
| concurrency | `PromiseChain`, `UnitOfWork`, `Serialized` | interleaved callers against serial runs |
| accounts | `Backoff`, `Attempts`, `Credentials`, `Sessions` | failure timing; sessions and grants after a password change; who gets in, and for how long |
| queries | `Cursor`, `Pagination`, `BoardQuery`, `BusinessTime` | each against a plain specification |
| other stores | `Locations`, `Attachments` | tree walks and deletes; rows and blobs |

`Store.Db` holds the tables. The events are split by card, tags are sets of folded names, and `keyEver` remembers the
key of every lane that ever existed, because a creation snapshot names its lane by id only. `Commands.Ctx` carries what a
command learns from outside: the clock, the key generator, board access, the policy decision, and the existence of
users, locations and waiting reasons.

Where the code's point is what happens between its awaits (`PromiseChain`, `UnitOfWork`, `Attempts`, `Credentials`,
`Attachments`), the model is a machine of small steps that any number of callers interleave, and the statements are over
all its behaviours.

## Assumptions

- Position keys: the generator gives a key strictly between valid bounds and strictly ascending batches; any such
  generator over a dense order will do (`Keys.KeyGen`). The library throws on bounds that do not ascend; so does the model.
- The clock does not go back where a statement is about time order, and event ids ascend.
- New password hashes, session ids, storage keys and lane ids were never used before.
- A card id can come back after a discard; statements about a card over a run require it to stay present.
- Record shape: the service does not keep an administrator from putting a column with workflow behaviour first. The
  invariant is therefore stated for runs in which no card is dropped into such a column. The condition is exact
  (`Shapes.StepShapedIff`, `Runs.RunShapedIff`), and `Scenarios.ReorderThenCreateBreaksShape` is a run that breaks it.
- An archiving transaction handles a candidate that was read from some earlier state (`Runs.CandidatesWereRead`).
- The JSON text of a key that the schema accepts round-trips (`Cursor.Faithful`).

## Where the code and its comments differ

- The comment on discarding says a draft must still be in intake; the code asks for the first column, whatever its key.
  The model follows the code.
- The comment on attachment add says that a failed insert cleans the blob up; the code also cleans it up when the hint
  after the commit throws (`Attachments.ThrowingHintLosesBlob`).
- The arrival lookup is documented for every card in done; for a card born in a done first column it falls back to the
  last update. `Archival.EnteredDoneAtIff` says exactly when the answer is right, `Scenarios.BornInDoneMisleads` is a run
  in which it is not.

## Model

| member | source | states |
|---|---|---|
| `Store.NextCardId` | `packages/db/src/repositories/card-repository.ts:56-66` | a new card's id is used by no present card (a discarded id may come back) |
| `Store.FirstLane` | `packages/core/src/services/internal.ts:81-84` | the entry lane is a leftmost column of the board; there is none only without columns |
| `LaneOrder.OnlyOneOrder` | `packages/db/src/repositories/card-repository.ts:87-103` | the lane's unique position keys determine its list: there is one enumeration in key order |
| `LaneOrder.RowIsInsertion` | `packages/db/src/repositories/card-repository.ts:184-203` | writing one row with a key between two neighbours is one list insertion at that index and keeps keys unique |
| `Integrity.GapIsFree` | `packages/db/src/repositories/card-repository.ts:184-203` | between the closest occupied key and the next neighbour there is always a free key, whatever hidden or archived rows the gap held |
| `Integrity.BackstopNeverFires` | `packages/core/src/services/internal.ts:149-168` | no command ever violates UNIQUE(lane, position), so the retry and its 409 are dead when commands run one at a time |
| `Integrity.ExecuteKeeps` | `packages/core/src/services/card-service.ts:132-949` | every command keeps cards on lanes of their own board, keys unique, lane keys and positions distinct, tags folded |
| `Integrity.CreateLaneAdds` | `packages/server/src/lanes/lane-admin-service.ts:67-96` | a new column gets a key unused on the board and the last place |
| `Integrity.DefaultLanesDiffer` | `packages/core/src/domain/boards.ts:51-59` | the seven default columns of a new board have different keys and places and belong to it |
| `Integrity.FullOrderListsAll` | `packages/server/src/lanes/lane-admin-service.ts:119-137` | the reorder check (same length, no duplicates, all known) means that every column is listed |
| `Integrity.RekeyedKeeps` | `packages/server/src/jobs/position-rebalance.ts:36-50` | after any number of row updates of a rebalance pass all keys are unique, archived rows untouched, rewritten rows on top in order |
| `Placement.MoveIsInsertion` | `packages/core/src/services/card-service.ts:371-398` | the target lane afterwards is the old list without the card, with the card directly before nextCardId or last; every other lane only loses it |
| `Placement.MoveIsAfterPrev` | `packages/core/src/services/card-service.ts:371-398` | and the card comes after prevCardId |
| `Placement.NeighborsRefusedOnlyIfStale` | `packages/core/src/services/card-service.ts:376-398` | a move is refused for its neighbours only when they are stale or in the wrong order; a valid gap always has room |
| `Placement.CreateIsFirst` | `packages/core/src/services/card-service.ts:151-160` | a created card heads the entry lane, all other lists are as before |
| `Placement.CancelIsLast` | `packages/core/src/services/card-service.ts:502-515` | a cancelled card ends the done lane's list |
| `Placement.ReopenIsLast` | `packages/core/src/services/card-service.ts:585-614` | a reopened card ends the list of the lane it lands in |
| `Placement.RebalanceKeepsOrder` | `packages/server/src/jobs/position-rebalance.ts:36-50` | a rebalance changes no list of live cards and no archived key, and puts the archived rows of the lane in front |
| `Placement.RebalancesIff` | `packages/server/src/jobs/position-rebalance.ts:36-50` | a pass rewrites something if and only if a live card's key in the lane has grown beyond the limit |
| `Acceptance.MoveSucceedsIff` | `packages/core/src/services/card-service.ts:332-446` | a move succeeds exactly for a live, accessible, unarchived card at the stated version, a column with the wanted key, the grants for reorder or transition (and for reopening when it leaves done), an active reason with a date when it enters waiting, and live neighbours in that column in the right order; the gap check and the unique index never refuse anything else |
| `Acceptance.UpdateSucceedsIff` | `packages/core/src/services/card-service.ts:215-294` | an edit succeeds exactly for an unarchived card in reach, granted, at the stated version, when the changed people, place and reason are known and waiting fields are only stated while waiting |
| `Acceptance.CancelSucceedsIff` | `packages/core/src/services/card-service.ts:481-536` | a cancellation succeeds exactly for an unarchived card in reach outside done, granted, at the stated version, with a resolution other than completed, on a board that has a done column |
| `Acceptance.ReopenSucceedsIff` | `packages/core/src/services/card-service.ts:552-626` | a reopen succeeds exactly for a card in reach in done, archived or not, granted, at the stated version: it always finds a lane to land in, so its last not-found refusal is dead |
| `Acceptance.CreateSucceedsIff` | `packages/core/src/services/card-service.ts:132-205` | a creation succeeds exactly on a board in reach that has a column, granted, with known people and place |
| `Acceptance.DiscardSucceedsIff` | `packages/core/src/services/card-service.ts:684-712` | a discard succeeds exactly for a card in reach in a leftmost column, archived or not, granted for its reporter, at the stated version |
| `Acceptance.ArchiveSucceedsIff` | `packages/core/src/services/card-service.ts:640-670` | a manual archival succeeds exactly for an unarchived card in reach in done, granted, at the stated version |
| `Acceptance.SetBlockedSucceedsIff` | `packages/core/src/services/card-service.ts:899-935` | a block succeeds exactly for an unarchived card in reach that is not blocked, with the grant to block, an unblock for a blocked one with the grant to unblock, each at the stated version |
| `Acceptance.LimitLaneSucceedsIff` | `packages/server/src/lanes/lane-admin-service.ts:44-64` | a limit is set exactly by who manages the columns of a board in reach, on a column of that board, and nothing else changes |
| `Acceptance.RemoveLaneSucceedsIff` | `packages/server/src/lanes/lane-admin-service.ts:99-116` | a column goes exactly when there is another one and no card, archived ones included, is in it |
| `Acceptance.ReorderSucceedsIff` | `packages/server/src/lanes/lane-admin-service.ts:119-137` | a reorder succeeds exactly with every column named once, and gives each its index |
| `Acceptance.OpenBoardSucceedsIff` | `packages/core/src/services/board-service.ts:90-118` | whoever manages boards opens one, live and with the seven default columns in their order, keys and limits |
| `Acceptance.HideBoardSucceedsIff` | `packages/core/src/services/board-service.ts:135-144` | a board in reach is hidden by who manages boards unless it is the last live one; nothing else changes |
| `Refusals.HiddenIsNotFound` | `packages/core/src/services/internal.ts:38-89` | whatever command on a board or card out of reach gets the answer for one that is not there |
| `Refusals.ArchivedIsToldSo` | `packages/core/src/services/internal.ts:26-29` | every change to an archived card in reach but a reopen or discard is refused as read-only |
| `Refusals.StaleIsToldSo` | `packages/core/src/services/internal.ts:31-36` | a command that fails and would succeed with another version stated is refused as stale |
| `Refusals.ForbiddenIsToldSo` | `packages/core/src/services/internal.ts:38-45` | one that fails and would succeed with every grant is refused as the policy decided |
| `Writes.CreateStores` | `packages/core/src/services/card-service.ts:151-182` | the new row has the request's title, description, priority, estimate, reporter, assignee and location in a leftmost column, blank progress, version 1 and both times now; its tags are the folded names, new ones spelled as they came first; one creation event holds all of it; no other row of any table changes |
| `Writes.UpdateStores` | `packages/core/src/services/card-service.ts:215-312` | each stated field and the tags have the stated value and all others the one they had; another date re-arms the alert; one event per changed field, with both values, and no other; the version rises if and only if there is one |
| `Writes.MoveStores` | `packages/core/src/services/card-service.ts:356-446` | work starts on the first entry into in_progress and never again; entering waiting stores the stated reason and date, leaving clears them; done resolves as completed, leaving done unresolves; nothing else of the row changes; the one event names both keys, or the stated neighbours, and its mark says whether the target lane now holds more live cards than its limit |
| `Writes.CancelStores` | `packages/core/src/services/card-service.ts:502-533` | the row is resolved as stated in the done column, waits for nothing, and keeps everything else; the one event records what it was |
| `Writes.ReopenStores` | `packages/core/src/services/card-service.ts:585-614` | the row is neither resolved nor archived and keeps all contents; the one event names the lane it landed in |
| `Writes.ArchiveStores` | `packages/core/src/services/card-service.ts:653-669` | the row gets its archive mark, the next version and one event, and keeps everything else |
| `Writes.ArchiveOneStores` | `packages/core/src/services/card-service.ts:743-769` | the nightly transaction writes the same or nothing |
| `Writes.SetBlockedStores` | `packages/core/src/services/card-service.ts:899-935` | the card is blocked for the stated reason since now, or has no reason and time of a block left; everything else stays, one event |
| `Writes.ForgetStores` | `packages/db/src/repositories/location-repository.ts:113-120` | when locations are deleted no card is left at one of them, and no card changes otherwise |
| `Audit.AppendAll` | `packages/db/src/repositories/event-repository.ts:22-31` | appending the events of one command continues the replay of lane key, resolution, flags, texts, priority, estimate, assignee and tags event by event |
| `Trails.CreateTraced` | `packages/core/src/services/card-service.ts:132-205` | the creation snapshot, with its tags, is the whole state of the new card |
| `Trails.UpdateTraced` | `packages/core/src/services/card-service.ts:215-273` | the field events of one update, each of title, description, priority, estimate, assignee and tags with its old value, lead from the old row and tags to the new ones |
| `Tracking.UpdateTracked` | `packages/core/src/services/card-service.ts:255-304` | the events for location, waiting reason and date state the last known value as the old one, and lead to the new row |
| `Trails.MoveTraced` | `packages/core/src/services/card-service.ts:332-449` | a move's event names the lane key before and after, and implies the resolution |
| `Trails.CancelTraced` | `packages/core/src/services/card-service.ts:481-536` | the single card.cancelled event explains lane and resolution |
| `Trails.ReopenTraced` | `packages/core/src/services/card-service.ts:552-626` | card.reopened explains the lane it lands in, the cleared resolution and archive mark |
| `Trails.ArchiveTraced` | `packages/core/src/services/card-service.ts:640-670` | card.archived explains the archive mark of a done card |
| `Trails.ArchiveOneTraced` | `packages/core/src/services/card-service.ts:743-769` | so does the nightly one, for a candidate of a done lane |
| `Trails.SetBlockedTraced` | `packages/core/src/services/card-service.ts:899-935` | card.blocked and card.unblocked explain flag and reason, and alternate |
| `Trails.DiscardTraced` | `packages/core/src/services/card-service.ts:684-712` | a discard erases row and trail together and leaves all other trails true |
| `Trails.StepTraced` | `packages/core/src/services/card-service.ts:132-949` | whatever command runs, every trail that replayed to its card before does so after |
| `Tracking.StepTracked` | `packages/core/src/services/card-service.ts:132-949` | whatever command runs: of reason, date and location the card has what its trail tells (a move into waiting tells no values, a deleted location is cleared silently), and what a cancellation records of them is what was told |
| `Tracking.ReopenTold` | `packages/core/src/services/card-service.ts:585-614` | a reopen leaves the reason and date that the trail alone determines: those of the cancellation it undoes, or the unchanged ones |
| `Tracking.ReasonEditsChain` | `packages/core/src/services/card-service.ts:290-294` | within one waiting episode each edit of the reason starts from the value that the edit before left |
| `Tracking.DateEditsChain` | `packages/core/src/services/card-service.ts:295-303` | and each edit of the date |
| `Runs.EveryReachableCard` | `packages/core/src/services/card-service.ts:132-949` | over every run from tables without cards, whose archival transactions handle candidates read before: replaying a card's trail gives exactly its lane key, resolution, flags, fields and tags, every from-value is the replayed one, what the trail tells of reason, date and location is so, and (if no card is dropped into a first column that carries behaviour) the record fits its lane |
| `Runs.RunInOrder` | `packages/core/src/services/internal.ts:106-122` | with a clock that does not go back, every trail of every state is in (createdAt, id) order |
| `Runs.LatestIsNewest` | `packages/db/src/repositories/event-repository.ts:75-94` | then the last appended event of a type is the newest by (createdAt, id), which is what the LIMIT 1 read returns |
| `Shapes.CreateShapedIff` | `packages/core/src/services/card-service.ts:151-182` | creation keeps the record rule if and only if the first column's key carries no behaviour |
| `Shapes.UpdateShaped` | `packages/core/src/services/card-service.ts:276-306` | edits keep it: waiting fields only change in the waiting lane |
| `Shapes.MoveShaped` | `packages/core/src/services/card-service.ts:356-446` | moves keep it: waiting fields, work start and resolution fit the lane entered and the lane left |
| `Shapes.MovedFits` | `packages/core/src/services/card-service.ts:400-436` | the moved row carries exactly what fits the lane entered: waiting fields cleared or set, work started, resolution set or cleared |
| `Shapes.CancelShaped` | `packages/core/src/services/card-service.ts:502-533` | cancelling keeps it, and the event holds all that a reopen needs |
| `Shapes.ReopenShapedIff` | `packages/core/src/services/card-service.ts:569-615` | a reopen keeps it if and only if it need not fall into a first column that carries behaviour |
| `Shapes.OpenedIsSafe` | `packages/core/src/services/board-service.ts:90-118` | on a board just opened the entry lane is harmless |
| `Scenarios.ReorderThenCreateBreaksShape` | `packages/server/src/lanes/lane-admin-service.ts:119-137` | a run that reaches the exception: the done column is put first, and the next creation breaks the rule |
| `Shapes.VendorFallbackUnreachable` | `packages/core/src/services/card-service.ts:576-583` | the case of a vendor-lane cancellation without a recorded reason never occurs |
| `Shapes.StepShapedIff` | `packages/core/src/services/card-service.ts:132-949` | every command keeps the record rule if and only if it drops no card into a first column that carries behaviour: resolution iff done, waiting reason and date iff waiting, alert only while waiting, archived only in done, blocked fields agree, work start in in_progress |
| `Runs.RunShapedIff` | `packages/core/src/services/card-service.ts:132-949` | so a run keeps the record rule in all its states if and only if none of its steps drops a card so |
| `Effects.CommandEffect` | `packages/core/src/services/card-service.ts:132-949` | a command changes one card's row and appends to its trail, or adds one card, or removes one, or touches nothing a trail speaks of |
| `Effects.StepSurvives` | `packages/core/src/services/internal.ts:32-36` | of a card that stays: versions never fall, a versioned write finds the version it states and leaves the next, only a cancellation changes what a reopen restores, a claimed alert stays claimed |
| `Runs.VersionConsumedOnce` | `packages/core/src/services/internal.ts:32-36` | each version of a card is consumed by at most one version-checked write or discard, over any run |
| `Restoring.CancelThenReopen` | `packages/core/src/services/card-service.ts:481-626` | cancel, any run that leaves the card in done without a successful reopen of it, reopen: same lane key, reason, date, work start, unarchived, unresolved if that lane key still exists; otherwise ready or the first column with a fresh cycle |
| `Restoring.ReopenReads` | `packages/core/src/services/card-service.ts:569-615` | what a reopen writes for a cancelled card, from what its newest cancellation recorded |
| `Restoring.CompletedStartsOver` | `packages/core/src/services/card-service.ts:569-615` | a card that is not cancelled is reopened into ready, or the leftmost column without one, with a fresh cycle |
| `Restoring.CancelRecords` | `packages/core/src/services/card-service.ts:502-533` | what a cancellation leaves behind for it |
| `Alerts.ClaimedOncePerEpisode` | `packages/core/src/services/card-service.ts:796-849` | between two claims of one card a new waiting episode began: an entry, a restore, or another date |
| `Alerts.NothingLeftDue` | `packages/core/src/services/card-service.ts:796-849` | right after a claim run nothing is due; only due cards were marked, no version changed |
| `Archival.NewestArrivalIsLastEntry` | `packages/core/src/services/card-service.ts:951-968` | the newest cancellation or lane change of a card in done is its arrival; without one it was born in done and never left |
| `Archival.EnteredDoneAtIff` | `packages/core/src/services/card-service.ts:951-968` | the one-row lookup gives the same time as a scan of the whole trail if and only if there is an arrival event, or the last update is the creation |
| `Archival.FallbackIsDead` | `packages/core/src/services/card-service.ts:951-968` | for a card born outside done there always is one |
| `Scenarios.BornInDoneMisleads` | `packages/core/src/services/card-service.ts:951-968` | a run that reaches the exception: created in a done first column and edited later, a card counts as arrived when it was edited |
| `Archival.RunArchivesExactly` | `packages/core/src/services/card-service.ts:729-776` | an undisturbed run archives exactly the live done cards whose trail shows an arrival by the cutoff, for each card that the lookup dates rightly |
| `Archival.SecondRunArchivesNothing` | `packages/core/src/services/card-service.ts:729-776` | a second run with the same cutoff archives none |
| `Runs.CandidatesStayFromDone` | `packages/core/src/services/card-service.ts:732-747` | whatever runs between the candidate read and the archiving transaction, that transaction only touches cards of a done lane |
| `CardService.Service.ResolveTagRows` | `packages/core/src/services/internal.ts:174-195` | the loop over tag names gives the folded set and the tag rows of its specification |
| `CardService.Service.Create` | `packages/core/src/services/card-service.ts:132-205` | the tables change exactly as specified, the new card holds the request and heads the entry lane, every other list and every trail stays; a refusal changes nothing |
| `CardService.Service.Update` | `packages/core/src/services/card-service.ts:215-315` | likewise for edits: each stated field is stored and no other, no list changes, trails stay true; a no-change edit writes no card and no event |
| `CardService.Service.Move` | `packages/core/src/services/card-service.ts:332-471` | likewise for moves and reorders: what Writes.MoveStores says of the row and the event, the next version, the wanted lane key, the card directly before its stated successor, all other lists without it |
| `CardService.Service.Cancel` | `packages/core/src/services/card-service.ts:481-536` | likewise for cancelling: the next version, last in done |
| `CardService.Service.Reopen` | `packages/core/src/services/card-service.ts:552-626` | likewise for reopening: the next version, last in the lane it lands in |
| `CardService.Service.Archive` | `packages/core/src/services/card-service.ts:640-670` | likewise for archiving: exactly as Acceptance.ArchiveSucceedsIff allows, the row and event of Writes.ArchiveStores, no list changes |
| `CardService.Service.SetBlocked` | `packages/core/src/services/card-service.ts:899-935` | likewise for block and unblock, with the row and event of Writes.SetBlockedStores |
| `CardService.Service.Discard` | `packages/core/src/services/card-service.ts:684-712` | likewise for discarding: the card leaves its lane and every table, other trails stay true |
| `Jobs.ClaimOverdueAlerts` | `packages/core/src/services/card-service.ts:796-849` | the loops over boards and overdue cards mark exactly the due cards, in one transaction |
| `Jobs.ReadCandidates` | `packages/core/src/services/card-service.ts:732-740` | the candidate list holds each live card of each live board's done lane once |
| `Jobs.ArchiveCandidate` | `packages/core/src/services/card-service.ts:743-769` | one archiving transaction: re-read, re-checked, archived with one event or left alone |
| `Jobs.ArchiveExpired` | `packages/core/src/services/card-service.ts:729-776` | the whole job is the fold of its transactions and reports the number of cards it archived |
| `Jobs.Rekey` | `packages/server/src/jobs/position-rebalance.ts:43-48` | the row-by-row rewrite never trips the unique index |
| `Jobs.RebalanceLane` | `packages/server/src/jobs/position-rebalance.ts:36-50` | a lane is rewritten iff a live key outgrew the limit, with the specified result |
| `LaneAdmin.UniqueKey` | `packages/server/src/lanes/lane-admin-service.ts:143-158` | the search for a key ends after at most one try per taken key plus one, with the first free name, refused iff it is too long |
| `LaneAdmin.CreateColumn` | `packages/server/src/lanes/lane-admin-service.ts:67-96` | refused exactly without access or grant, or when the first free name is too long; otherwise adds a last column under that name |
| `LaneAdmin.RemoveColumn` | `packages/server/src/lanes/lane-admin-service.ts:99-116` | removes exactly an empty column that is not the last one |
| `LaneAdmin.ReorderColumns` | `packages/server/src/lanes/lane-admin-service.ts:119-137` | writes each column's index, only for a full list |
| `PromiseChain.StartsInCallOrder` | `packages/db/src/unit-of-work.ts:68-88` | whoever may start finds all earlier callers settled and all later ones waiting |
| `PromiseChain.OnlyOneActive` | `packages/db/src/unit-of-work.ts:68-88` | at most one caller of a chain is active |
| `PromiseChain.NeverStuck` | `packages/db/src/unit-of-work.ts:68-88` | while a call is unsettled, one is active or may start |
| `PromiseChain.NestedCallWedges` | `packages/db/src/unit-of-work.ts:90-97` | what the guard against nesting prevents: a task that awaits a call behind its own never settles, and nobody behind it ever starts |
| `UnitOfWork.BeginKeeps` | `packages/db/src/unit-of-work.ts:99-111` | no transaction is open when a caller gets to BEGIN, and a failed BEGIN leaves no trace |
| `UnitOfWork.BeginReadKeeps` | `packages/db/src/unit-of-work.ts:113-125` | a reader that gets its turn finds the shared read connection closed, so none is refused because of another |
| `UnitOfWork.BeginOpens` | `packages/db/src/unit-of-work.ts:99-103` | a granted BEGIN opens a transaction over the committed database and lets its caller run; a refused one ends the caller and nothing else |
| `UnitOfWork.StatementActs` | `packages/db/src/unit-of-work.ts:103-108` | a statement acts on its own open transaction only; one that throws sends the caller to ROLLBACK |
| `UnitOfWork.CommitLands` | `packages/db/src/unit-of-work.ts:103-105` | a granted COMMIT makes the transaction's database the committed one, adds the caller to the commits and gives it its result |
| `UnitOfWork.RollbackUndoes` | `packages/db/src/unit-of-work.ts:106-110` | a refused COMMIT and a ROLLBACK leave the committed database, the commits and the results as they were |
| `UnitOfWork.ReadSees` | `packages/db/src/unit-of-work.ts:113-125` | a reader's first statement sees what is committed then, every later one the same |
| `UnitOfWork.CommitsIffItGoesThrough` | `packages/db/src/unit-of-work.ts:68-111` | in every behaviour in which the database refuses no writer, a caller that is done has committed if and only if its task, run alone after the earlier committed ones, gets to its end |
| `UnitOfWork.SerialEquivalence` | `packages/db/src/unit-of-work.ts:56-125` | under any interleaving the committed database is the successful callers' work run one at a time in call order, and each of them gets what its task returns there; at most one transaction is open and no statement runs outside one |
| `UnitOfWork.ReadsAreConsistent` | `packages/db/src/unit-of-work.ts:79-88` | on the shared read connection, whatever fails, all that one reader sees is one state, that of a prefix of the commits which holds all that had committed when it began |
| `UnitOfWork.QueueDrains` | `packages/db/src/unit-of-work.ts:68-125` | from every reachable state, after any failures, the writers' queue can be emptied, and if nothing is refused meanwhile each waiting caller commits if and only if its task goes through at its turn |
| `UnitOfWork.ReadQueueDrains` | `packages/db/src/unit-of-work.ts:79-125` | and the readers' queue, by readers' steps alone, at most two for each |
| `Serialized.CommittedIsARun` | `packages/db/src/unit-of-work.ts:56-125` | so concurrent callers of the card service produce the states of a run in call order |
| `Serialized.EveryCallCounts` | `packages/db/src/unit-of-work.ts:56-111` | if the database refuses nobody, then when all are done the tables are what all calls in their order lead to, and exactly the commands that succeed there have committed |
| `Serialized.OneWriterPerVersion` | `packages/core/src/services/internal.ts:32-36` | and of concurrent writers that state one version at most one rewrites the card |
| `Backoff.LeastInClosedForm` | `packages/server/src/auth/backoff.ts:18-24` | the delays add up to 63 s up to the seventh failure and 60 s for each further one |
| `Backoff.RecordKeeps` | `packages/server/src/auth/backoff.ts:49-62` | the table keeps its insertion order by last failure and never exceeds a positive cap |
| `Backoff.EvictsOldestOnly` | `packages/server/src/auth/backoff.ts:53-57` | only a new account in a full table evicts, and it evicts the account with the oldest last failure |
| `Backoff.LoginBackoff.RetryAfterMs` | `packages/server/src/auth/backoff.ts:42-47` | the answer is the least wait: from now on an attempt is let through exactly when that much time has passed; it is at most a minute |
| `Backoff.LoginBackoff.RecordFailure` | `packages/server/src/auth/backoff.ts:49-62` | deletes, evicts and re-inserts as the specification of the table says |
| `Attempts.FailuresTakeTime` | `packages/server/src/auth/auth-service.ts:108-150` | for any burst over login and change-password, the n-th failure after the first comes no earlier than the sum of n delays |
| `Attempts.TrailEndsOnlyBy` | `packages/server/src/auth/auth-service.ts:134-150` | an account's failures are forgotten only by its own success or by eviction as the oldest of a full table |
| `Attempts.GateOpensIff` | `packages/server/src/auth/auth-service.ts:108-150` | a caller whose turn it is gets to the hash if and only if its account has no failure on record or the delay for as many has passed since the last; otherwise it is refused at once |
| `Attempts.TrailTells` | `packages/server/src/auth/auth-service.ts:134-150` | a wrong password is on record at once, a right one clears the record, no other step of the account does either |
| `Credentials.AfterPasswordChange` | `packages/server/src/auth/auth-service.ts:227-270` | after a change commits and until the next one, the user's sessions are the kept one and those of logins that verified the new hash after it; codes and live tokens are younger than it |
| `Credentials.OldSessionsAreShut` | `packages/server/src/auth/auth-service.ts:175-203` | a session that the user had when a change committed, and that was not kept, never authenticates again, whatever happens afterwards |
| `Credentials.OnlyLaterSessions` | `packages/server/src/auth/auth-service.ts:227-270` | from a change on for ever, the user's other sessions come from credentials read, and a password verified, since then |
| `Credentials.OnlyLoginMints` | `packages/db/src/repositories/session-repository.ts:33-55` | only a login with credentials still current, or the setup of the very first account, adds a session; no id comes twice |
| `Credentials.SetupKeeps` | `packages/server/src/auth/setup-service.ts:76-84` | of racing first-boot setups the loser changes nothing; the winner's session fits like that of a login |
| `Credentials.SetHashKeeps` | `packages/server/src/users/user-admin-service.ts:184-194` | a change or a reset in one transaction leaves no session and no live grant from before, but the kept one |
| `Credentials.SessionsExpire` | `packages/server/src/auth/auth-service.ts:35-39` | a session authenticates only within seven days of its last recorded visit and thirty of its login, whenever its slides arrive |
| `Sessions.AuthenticatesIff` | `packages/server/src/auth/auth-service.ts:175-192` | in every state a session authenticates exactly its active user, within seven days of its last recorded visit and thirty of its login |
| `Sessions.LoginLasts` | `packages/server/src/auth/auth-service.ts:151-203` | from a login with current credentials on, until a logout, an expiry, a reset or revocation of the account, or a change that keeps another session, the session authenticates its user at exactly the times within a week of its last recorded visit and a month of the login |
| `Sessions.EndedIsShut` | `packages/server/src/auth/auth-service.ts:207-211` | and after such a step never again |
| `Sessions.DeactivatedIsShut` | `packages/server/src/auth/auth-service.ts:186-192` | from its deactivation until it is active again nobody gets in as the user |
| `Sessions.RequestSlides` | `packages/server/src/auth/auth-service.ts:193-203` | after a request that gets in, and its recorded visit when one is due, less than five minutes of the week are gone |
| `Sessions.InactiveIsRevoked` | `packages/server/src/auth/auth-service.ts:189-192` | a request with the session of an inactive user is turned away and revokes it |
| `Sessions.CheckedIff` | `packages/server/src/auth/auth-service.ts:140-149` | an attempt passes its check exactly with the right password, a login only for an account active when read |
| `Sessions.LoginGoesThroughIff` | `packages/server/src/auth/auth-service.ts:151-162` | a checked login gets its session if and only if the account is active and still has the hash that was checked |
| `Sessions.ChangeGoesThroughIff` | `packages/server/src/auth/auth-service.ts:252-270` | a checked change sets the new hash and keeps the asking session if and only if account, hash and session still fit, and otherwise does nothing |
| `Credentials.RevokeSessions` | `packages/db/src/repositories/session-repository.ts:43-50` | revoking keeps of the user at most the excepted session, and all sessions of others |
| `Credentials.RevokeGrants` | `packages/server/src/auth/revoke-user-credentials.ts:4-13` | codes are deleted, tokens revoked, of this user only |
| `Cursor.TextRoundTrip` | `packages/core/src/domain/cursor.ts:31-51` | base64 with the URL alphabet and no padding decodes to what was encoded, for all bytes |
| `Cursor.CursorRoundTrip` | `packages/core/src/domain/cursor.ts:31-42` | decoding an encoded valid key gives the key, and the token has only letters, digits, - and _ |
| `Cursor.CursorsDiffer` | `packages/core/src/domain/cursor.ts:31-35` | different valid keys have different tokens |
| `Cursor.TokensAreNotUnique` | `packages/core/src/domain/cursor.ts:40-51` | bytes have a second text in the alphabet if and only if they are no whole triples: leftover bits are ignored |
| `Cursor.KeysHaveTwoTokens` | `packages/core/src/domain/cursor.ts:40-51` | so a key whose JSON text is no whole number of triples is read from a second token |
| `Pagination.CursorsRoundTrip` | `packages/core/src/domain/cursor.ts:31-42` | the keys of a table, all valid, survive the trip through the opaque token, which is all that following pages needs of it |
| `Pagination.PaginateSlices` | `packages/core/src/services/board-query-service.ts:697-705` | one row more than the limit only tells that there is another page, whose cursor is the last item's key |
| `Pagination.NothingSkippedOrRepeated` | `packages/db/src/repositories/card-repository.ts:283-304` | while rows come and go, followed pages repeat nothing, stay in order and skip no row that is there throughout |
| `Pagination.PagesAreTheList` | `packages/core/src/services/board-query-service.ts:265-278` | on a fixed table following the cursors ends and gives the whole filtered list, in either order, ties included |
| `BoardQuery.BoardSnapshot` | `packages/core/src/services/board-query-service.ts:192-210` | each lane's live cards in position order and its WIP marker |
| `BoardQuery.FilteredBoard` | `packages/core/src/services/board-query-service.ts:222-259` | one cross-lane list, ties in any order, regrouped by lane, gives each lane's own ordered filter; the marker ignores the filter |
| `BoardQuery.EmptyFilterIsSnapshot` | `packages/core/src/services/board-query-service.ts:212-221` | the empty filter shows the snapshot |
| `BoardQuery.FilteredLaneKeepsOrder` | `packages/core/src/services/board-query-service.ts:222-259` | a filtered lane is the lane's list with cards left out |
| `BoardQuery.OneValueMeans` | `packages/db/src/repositories/card-repository.ts:211-279` | what each single value of each facet selects |
| `BoardQuery.ValuesWiden` | `packages/db/src/repositories/card-repository.ts:211-279` | a further value in a facet adds the cards that match it |
| `BoardQuery.FacetsNarrow` | `packages/db/src/repositories/card-repository.ts:211-279` | a card matches a filter if and only if it matches each of its facets |
| `BoardQuery.ExpandLocations` | `packages/core/src/services/board-query-service.ts:493-504` | the union over the distinct roots is the union of their subtrees |
| `BoardQuery.ExpandedIsFacet` | `packages/core/src/services/board-query-service.ts:493-504` | membership in that union is what the location facet means |
| `BusinessTime.BusinessMinutesBetween` | `packages/core/src/domain/dates.ts:48-71` | the loop over UTC days, adding fractions of minutes, measures exactly the instants on weekdays within the hours |
| `BusinessTime.Additive` | `packages/core/src/domain/dates.ts:48-71` | adjacent intervals add up |
| `BusinessTime.Bounded` | `packages/core/src/domain/dates.ts:48-71` | never more than the elapsed time, and 0 for an empty interval |
| `BusinessTime.WholeWeek` | `packages/core/src/domain/dates.ts:48-71` | any seven days hold five working days |
| `BusinessTime.OnceOverdueAlwaysOverdue` | `packages/core/src/domain/dates.ts:77-85` | overdue work stays overdue |
| `Locations.ChildrenByParent` | `packages/core/src/services/board-query-service.ts:521-530` | the index lists the children of each parent once |
| `Locations.SubtreeIds` | `packages/core/src/services/board-query-service.ts:539-550` | the unguarded depth-first walk ends on every reachable table and lists each descendant exactly once |
| `Locations.CollectSubtree` | `packages/db/src/repositories/location-repository.ts:8-33` | the guarded breadth-first walk lists the same subtree, children before parents |
| `Locations.WalksAgree` | `packages/db/src/repositories/location-repository.ts:8-33` | the two walks list the same locations |
| `Locations.LocationAdmin.Create` | `packages/server/src/locations/location-admin-service.ts:55-92` | exactly the rows are refused that would spoil the kind hierarchy or the sibling names, with the error that says which; a refusal changes nothing |
| `Locations.LocationAdmin.Rename` | `packages/server/src/locations/location-admin-service.ts:95-109` | exactly the names are refused that would clash with a sibling |
| `Locations.LocationAdmin.DeleteRows` | `packages/db/src/repositories/location-repository.ts:121-124` | each single row goes only after all its children and all references to it |
| `Locations.LocationAdmin.Delete` | `packages/db/src/repositories/location-repository.ts:106-131` | removes exactly the subtree, clears exactly the references to it, leaves no dangling parent or card |
| `Attachments.StepKeepsIff` | `packages/core/src/services/attachment-service.ts:54-169` | every step of interleaved adds, removes and discards keeps the invariant, but exactly a hint that throws while its row is active and not lost yet |
| `Attachments.ActiveRowsAreBacked` | `packages/core/src/services/attachment-service.ts:54-169` | in every state an active row has its blob, unless the hint of its own add threw before |
| `Attachments.NeverMoreThanTen` | `packages/core/src/services/attachment-service.ts:54-169` | no card ever has more than ten active attachments, whatever happens |
| `Attachments.AddGoesThroughIff` | `packages/core/src/services/attachment-service.ts:62-98` | an add gets its row, over its stored blob, if and only if the card is there, not archived, the policy allows it and fewer than ten are active; otherwise it goes on to clean up |
| `Attachments.RowsStayUnless` | `packages/core/src/services/attachment-service.ts:135-161` | an active row changes only by its own removal and goes only with its card |
| `Attachments.NoBlobIsForgotten` | `packages/core/src/services/attachment-service.ts:99-109` | in every state each blob has its active row or an operation that will see to it, unless a failed store or delete or a vanished caller left it behind |
| `Attachments.ThrowingHintLosesBlob` | `packages/core/src/services/attachment-service.ts:99-110` | a run in which a throwing hint deletes the blob of a committed row |

## Left out

- Attempts.FailuresTakeTime: accounts are folded in ASCII only, and an attempt that breaks off with a database error records nothing, as in the code.
- Tracking.StepTracked: a move's event carries no reason or date and the deletion of a location clears cards silently, so of these three fields only what trails tell is replayed.
- BusinessTime.BusinessMinutesBetween: minutes are exact fractions; floating-point rounding of their sum is not modelled.
- CardService.Service.Update: the checks that the code interleaves with the edits come first; the transaction's rollback makes that invisible.
- Cursor.CursorRoundTrip: the schema and the JSON printer and parser are functions that round-trip what the schema accepts.
- Jobs.ArchiveExpired: one clock reading serves all transactions of the run; with other commands in between, the single transactions are steps of a run instead.
- LaneAdmin.CreateColumn: the slug is an input; making it from the label is not modelled, and of the key schema only the length can fail.
- Serialized.CommittedIsARun: a command is one statement of its transaction; tasks of many statements are in `UnitOfWork`.
- Credentials.AfterPasswordChange: authorization-code exchange and refresh rotation are arbitrary grants and drops of grants.
- The internals of the key generator, password hashing, random ids, schema parsing and SQL text: contracts only.
- The policy engine: an oracle in front of each command, for any policy.
- The Postgres adapters, whose isolation differs from the serial queue.
- HTTP, MCP, Slack, event streaming, metrics, configuration and the web client.
- Watchers, notifications, relations, comments' text, filter presets, name enrichment, origin and Slack fields of a card: they would add only easy members. Comment and attachment events appear in trails as notes.
- Board settings, defaults and access lists; a board is opened with its default columns, and deleting it hides it.
- The order of tag names inside a payload, and non-ASCII case folding.
- Stale-card reporting and the activity feed's scoping; no claim is made about the time a card entered review.
