# TaskTips Cloud: the sync and restore engine, modelled and proved

TaskTips Cloud is a versioned object store kept in database tables. Devices push revisions with a
compare-and-set per object, bootstrap from frozen manifests and pull an append-only change log;
lease-holding workers restore earlier states, collect payloads and purge projects. This project
models that engine and proves what its parts promise together, over every run.

## How the model is built

- `Basics`, `ChangeLog`: revisions, the tables a write touches, and the log as a sequence of
  revisions. `Latest` is the meaning of a log: the newest row of every object.
- `Push`, `RestoreLoop`, `Replica`: the item loop of a push, the two loops of a restore, and the
  pages of pull and bootstrap, with what they mean for the log.
- `Transactions`: every database transaction of one project as a function of the state it reads.
- `Persistence`: the class `Database`, whose methods perform those transactions statement by
  statement on mutable tables, loops included; each method's contract equates its effect and its
  answer with the transaction's function.
- `Invariants`: what each transaction keeps (`DbOk`) and how it may change the state (`Step`).
- `Service`: workers as program counters over the restore loop of the worker process, requests in
  progress, devices, and the events that move them. Each call a worker makes may be answered, may
  commit without its answer arriving, or may not happen; a worker may stop anywhere.
- `Safety`: the invariant of the running service, kept by every event. `Runs`, `RestoreRuns`,
  `PushRuns`, `LeaseRuns`, `DeviceRuns`: theorems over all runs from a new project.
- `PushAnswers`, `ReadRuns`, `JobAnswers`: when each request is accepted, what every refusal is and
  which rows it writes, said with literal numbers on the log and the rows, without the functions of
  the requests. `RestoreProgress`, `RestoreEntries`: what a worker that is left alone brings about,
  and what a restore appends, entry by entry.
- `StaleSnapshot`, `LostObjects`, `BorrowedToken`: concrete runs that show why a condition is needed.
- `Requests`: what the endpoints check, and the cursors they issue.
- `PayloadKeys`, `PayloadLocks`: object keys, and uploads, collection, sweep and purge as sections
  that interleave under one lock per project and hash.
- `ProjectPurge`, `PurgeRuns`, `PurgeInService`: the leased purge job, across crashes and takeovers.
- `RefreshTokens`, `RotationRuns`, `RateLimiter`, `LimiterRuns`, `LikePattern`: token families, the
  fixed-window limiter, when each of them accepts, and search terms as LIKE patterns.

`RestoreLoop.SnapshotAndSequenceAgree`, `RestoreLoop.RestoringBackUndoes` and
`Replica.InterleavedPullsConverge` are helpers: they say of one state or one log what
`RestoreRuns.SnapshotOrSequence`, `RestoreRuns.RestoreIsUndone` and
`DeviceRuns.DeviceHoldsItsCursor` say of every run.

Helpers too are the tables of answers of single transactions, with conditions and effects written out
on the rows: `JobAnswers.CancelIsAcceptedExactly`, `DueExactly`, `ProjectRequestsExactly`,
`SnapshotsSettleExactly`, `CatalogueChangesExactly` and `ExpiryRemovesExactly`,
`JobAnswers.StrangersAreRefused` and `HolderIsAnswered`, `PurgeRuns.PurgeIsClaimedExactly`,
`PurgeIsQueuedExactly` and `StrangersChangeNothing`, `RotationRuns.RevocationWrites` and
`SessionRefusals`, `ReadRuns.RecordingIsAnsweredExactly`, `PushAnswers.OtherRecordsStay` and
`Requests.CursorIsBound`.

Assumptions. A transaction that writes the log, the heads or a job's project is one atomic step: it
holds the project row (`crates/persistence/src/lib.rs:5761-5780`). `pull_page` and
`bootstrap_manifest_page` read the project without that lock and then run further statements; that
each of them is one atomic step too is an assumption of its own. New identifiers come from a counter and are never
reused. The clock does not go back. Where a query fixes no row order, or an order the model does
not represent, the order is a parameter. A project starts active, at generation 1, with an empty
log (`migrations/0001_init.sql:223-229`).

## What was found

- A restore does not need its pre-restore snapshot to be ready. `mark_snapshot_ready_for_job`
  does not look at the number of rows it updated, and pending snapshots expire after a day, so a
  slow worker can restore with an expired snapshot. `StaleSnapshot.RestoreWithStaleSnapshot` is
  such a run; `RestoreRuns.SnapshotIsReadyExactly` says when the snapshot is ready. Its content is
  right in every case (`RestoreRuns.RestoreReplacesItsSnapshot`).
- A catalogue row can outlive its object in exactly two ways: the object store deletes the object
  and reports a failure, or the deletion of the row does not commit
  (`PayloadLocks.EventKeepsExactly`). Both happen: `LostObjects.UnacknowledgedDeleteLoses` and
  `LostObjects.UncommittedRemovalLoses` are runs that end so.
- A completed bootstrap does not mean that the device was served the manifest, because a page token
  is not tied to a device. In the run `BorrowedToken.BorrowedTokenCompletes` a device asks for the
  second page of another device's bootstrap, is recorded as bootstrapped, and has a push judged,
  without ever having been served the first item. `DeviceRuns.LastPageIsWholeExactly` says when the
  last page leaves its device with the whole manifest: exactly when the offset asked for is not past
  what the device already keeps of it, or the manifest is empty. A device that follows its own
  tokens always was served every item (`DeviceRuns.OwnBootstrapIsWhole`).

## Model

| member | source | states |
|---|---|---|
| ChangeLog.RankedRowsAreLatest | crates/persistence/src/lib.rs:3396-3412 | The window query over the log up to a sequence ranks first exactly the newest row of every object. |
| ChangeLog.HistoryIsNumbered | crates/persistence/src/lib.rs:4599-4660 | In the log a project can have, each object's revisions are 1..n in log order and each base names its predecessor. |
| ChangeLog.OneWritePerBase | crates/persistence/src/lib.rs:4529-4537 | At most one log entry writes a given object over a given base revision. |
| ChangeLog.AppendKeepsTables | crates/persistence/src/lib.rs:4600-4650 | The statements of one write extend the log by one entry and keep sequences gapless, histories linear and heads equal to the newest rows. |
| ChangeLog.HeadRowsAreLatest | crates/persistence/src/lib.rs:3150-3163 | The heads joined with their revisions are exactly the newest logged revision of every object. |
| Push.PushBatchKeeps | crates/persistence/src/lib.rs:4516-4660 | A push only appends; its applied results are, in order, exactly the new entries, with the client's content; the log/head invariant and catalogue closure are kept. |
| Push.UsedItemConflicts | crates/persistence/src/lib.rs:4518-4537 | An item whose object and base were already written over is answered with a conflict, wherever it stands in a batch. |
| Push.RepeatedItemAppliesOnce | crates/persistence/src/lib.rs:4517-4537 | Two items of one batch with the same object and base are never both applied. |
| Push.DistinctItemsAreIndependent | crates/persistence/src/lib.rs:4516-4660 | In a batch over distinct objects each item is applied exactly when its base is the head before the batch and its payload is acceptable, then shows its content, and nothing else changes. |
| Replica.PullKeepsCopy | crates/persistence/src/lib.rs:4327-4346 | A pulled page takes a copy equal to the newest rows at its cursor to one equal at the returned cursor; the cursor advances while there is more and is the end otherwise. |
| Replica.CatchUpConverges | crates/persistence/src/lib.rs:4327-4346 | Catching up with a fixed log ends after at most one page per missing entry plus one, with a copy equal to the newest rows. |
| Replica.TokensDeliverEachItemOnce | crates/persistence/src/lib.rs:3518-3533 | Whatever page sizes are asked for, following page offsets delivers the manifest's items in order, each once. |
| Replica.PositivePagesFinish | crates/persistence/src/lib.rs:3518-3533 | A client that asks for positive pages finishes within one page per item and one more. |
| Replica.BootstrapCopyIsLatest | crates/persistence/src/lib.rs:3396-3412 | A finished bootstrap leaves exactly the newest rows at the manifest's sequence. |
| RestoreLoop.WithAbsentCompletes | crates/persistence/src/lib.rs:3163-3180 | The completed target is the target plus one tombstone for each current object it does not mention, no object twice. |
| RestoreLoop.RestoreItemsMeaning | crates/persistence/src/lib.rs:3181-3262 | After the write loop every item's object shows the item, every other object is untouched, and the counters count the objects written. |
| RestoreLoop.RestoreFailsOnlyOnMissingPayload | crates/persistence/src/lib.rs:3189-3207 | Over well-formed items the loop fails exactly when an item it must write has no catalogue row, and then with that error. |
| RestoreLoop.RestoreBringsBack | crates/persistence/src/lib.rs:3120-3262 | A restore shows the state at its target, with tombstones for newer objects; the old log is a prefix; the counters are the numbers of objects moved since. |
| RestoreLoop.RestoreSucceeds | crates/persistence/src/lib.rs:3190-3207 | While the catalogue covers every stored revision, a restore to a past state does not fail. |
| RestoreLoop.UnchangedIsNotMoved | crates/persistence/src/lib.rs:5836-5843 | Comparing a head with a past state by content and revision tells exactly whether the object was written since. |
| Persistence.Database.Push | crates/persistence/src/lib.rs:4399-4690 | Push: replay, guards and item loop change the tables and answer as `PushTx` says, which `PushAnswers` and `PushRuns` determine, and keep the invariant. |
| Persistence.Database.ApplyItems | crates/persistence/src/lib.rs:4516-4660 | The item loop computes the fold of the per-item step, whose answers `PushAnswers.PushAnswersItems` determines, or the error that aborts it. |
| Persistence.Database.PullPage | crates/persistence/src/lib.rs:4306-4358 | Pull: guards, one row more than the limit, next sequence, as `PullTx` says, which `ReadRuns.PullIsServedExactly` determines. |
| Persistence.Database.PrepareBootstrap | crates/persistence/src/lib.rs:3387-3434 | A manifest freezes the newest rows, the generation and the sequence. |
| Persistence.Database.BootstrapPage | crates/persistence/src/lib.rs:3484-3558 | A manifest page with its guards; the last page records the completion. |
| Persistence.Database.TakeSnapshot | crates/persistence/src/lib.rs:2342-2393 | A pending snapshot of the heads at the current sequence. |
| Persistence.Database.EnqueueRestore | crates/persistence/src/lib.rs:2524-2591 | Enqueue: only on an active project without an active job and for a target that exists. |
| Persistence.Database.AdminEnqueueRestore | crates/persistence/src/lib.rs:5054-5145 | The administrator's enqueue, with its own order of checks. |
| Persistence.Database.CancelRestore | crates/persistence/src/lib.rs:2621-2686 | Cancels a queued job, marks a running one, refuses any other. |
| Persistence.Database.ClaimRestoreJob | crates/persistence/src/lib.rs:2689-2748 | Selects the only row of the project that is due, or nothing when none is; the claim enters or needs maintenance, draws a new lease token, or fails the job. |
| Persistence.Database.CreatePreRestoreSnapshot | crates/persistence/src/lib.rs:2753-2825 | Under the lease and without a cancellation, snapshots the heads and links the snapshot to the job; a requested cancellation is answered so that `RestoreProgress.CancellationCompletes` holds. |
| Persistence.Database.MarkSnapshotReady | crates/persistence/src/lib.rs:2850-2874 | Settles a pending snapshot for the lease holder and reports nothing. |
| Persistence.Database.RenewLease | crates/persistence/src/lib.rs:2877-2897 | Extends the lease for its holder only. |
| Persistence.Database.CancelRestoreWithLease | crates/persistence/src/lib.rs:2901-2946 | Completes a requested cancellation and leaves maintenance. |
| Persistence.Database.RetryRestoreJob | crates/persistence/src/lib.rs:2995-3021 | Requeues under the lease until the third attempt fails the job. |
| Persistence.Database.ReopenFailedRestore | crates/persistence/src/lib.rs:3024-3070 | Reopens a project in maintenance that has any failed job. |
| Persistence.Database.DisableProject | crates/persistence/src/lib.rs:2107-2126 | Disables from any status. |
| Persistence.Database.ExecuteRestore | crates/persistence/src/lib.rs:3088-3292 | The restore transaction: fencing, target, both loops, new generation, active project, succeeded job, or an error without any change. |
| Persistence.Database.AddAbsent | crates/persistence/src/lib.rs:3163-3180 | The first loop computes the completed target. |
| Persistence.Database.WriteItems | crates/persistence/src/lib.rs:3181-3262 | The second loop computes the writes and both counters, or the error that aborts it. |
| Invariants.CollectPayloadKeeps | crates/persistence/src/lib.rs:650-698 | Garbage collection never removes the catalogue row of a stored revision, and keeps every other invariant. |
| Invariants.ExecuteMeaning | crates/persistence/src/lib.rs:3094-3288 | In every state that meets the invariants a restore past its three guards succeeds and brings its target back. |
| Invariants.OneClaimable | crates/persistence/src/lib.rs:2691-2700 | A project never has two rows that the claim query could select. |
| Invariants.ClaimKeeps | crates/persistence/src/lib.rs:2689-2748 | A claim keeps one active job, attempts below three, the accounting of generations, and draws a token above all others. |
| Invariants.PushKeeps | crates/persistence/src/lib.rs:4399-4690 | A push keeps every invariant, including frozen snapshots and manifests and unexpired records. |
| Safety.SnapshotFreezes | crates/persistence/src/lib.rs:2753-2825 | The pre-restore snapshot lists exactly the heads when it is taken. |
| Safety.WorkerStays | crates/worker/src/main.rs:105-178 | While a worker's lease and the maintenance window last, no other step disturbs that its snapshot lists the heads. |
| Safety.DeviceReceives | crates/api/src/routes.rs:869-899 | A served bootstrap page takes a device one page further along its manifest; the last page leaves it with the newest rows at the manifest's sequence. |
| Safety.EventKeeps | crates/worker/src/main.rs:105-178 | Every event of the service, by workers, users, administrators, devices or cleanup, keeps the invariant of the service. |
| Runs.RunIsSafe | crates/worker/src/main.rs:105-178 | The invariant holds at every moment of every run. |
| Runs.RunGrows | crates/persistence/src/lib.rs:5761-5780 | Between any two moments log, clock and generation only grow, job rows evolve one way, settled snapshots and unexpired records stay, and whoever still holds an old lease finds the tables as they were. |
| RestoreRuns.RestoreReplacesItsSnapshot | crates/worker/src/main.rs:105-178 | Whenever a restore succeeds, the heads it replaces are exactly those of the job's pre-restore snapshot, taken under the same lease token. |
| RestoreRuns.RestoreSucceedsExactly | crates/persistence/src/lib.rs:3094-3207 | In every reachable state a restore succeeds exactly when the lease is held, no cancellation was requested and the project is in maintenance; it never fails for want of a payload or of its target. |
| RestoreRuns.RestoreShowsItsTarget | crates/persistence/src/lib.rs:3120-3282 | In every run a successful restore shows its target, extends the log and reports the right counts. |
| RestoreEntries.RestoreAppendsOnly | crates/persistence/src/lib.rs:3181-3262 | Every entry a successful restore appends, in every run, follows its object's newest revision, at the time of the restore, with the content, device and catalogue row of the target, or is a tombstone. |
| RestoreProgress.RequestedRestoreIsCarriedOut | crates/worker/src/main.rs:105-178 | From a request for a restore to an existing target of an active project without another one, a claim and six answered calls of its worker lead to success: the target visible, the next generation, an active project, a ready snapshot of the heads. |
| RestoreProgress.ClaimedRestoreIsCarriedOut | crates/worker/src/main.rs:105-178 | The same from any claim of a job that is not cancelled: the first attempt, a retry, or after another worker's lease ran out. |
| RestoreProgress.FailureIsTriedAgain | crates/persistence/src/lib.rs:2995-3021 | When a worker's snapshot, upload or restore fails, its next call leaves the job queued for 60 seconds later, or failed at the third attempt, and nothing else changed. |
| RestoreRuns.RestoreIsUndone | crates/persistence/src/lib.rs:3120-3188 | Restoring a restore's snapshot, or the sequence just before it, at any later time undoes it, whatever happened in between. |
| RestoreRuns.SnapshotOrSequence | crates/persistence/src/lib.rs:3120-3148 | Restoring a ready snapshot and restoring its sequence give the same visible state and counts. |
| RestoreRuns.SnapshotIsReadyExactly | crates/persistence/src/lib.rs:2850-2874 | When a restore succeeds its snapshot is ready exactly when it had not expired by the time the worker marked it. |
| StaleSnapshot.RestoreWithStaleSnapshot | crates/persistence/src/lib.rs:2271-2286 | A run in which a restore succeeds although its snapshot has expired. |
| PushRuns.UsedItemNeverAppliesAgain | crates/persistence/src/lib.rs:4416-4537 | Once an object was written over a base revision, no later push applies an item with that object and base, under any key, device or generation. |
| PushRuns.PushIsIdempotent | crates/persistence/src/lib.rs:4424-4515 | For thirty days every push under an answered key returns the same outcome for the same hash, is refused for another, and changes nothing, whatever ran in between. |
| PushRuns.KeptAnswerIsRecorded | crates/persistence/src/lib.rs:5859-5918 | Every judged push and every recorded request failure is stored so that its replay gives the answer again. |
| PushRuns.CompletionHasOrigin | crates/persistence/src/lib.rs:3509-3549 | A completion row was written by serving that device the last page of a manifest of that generation. |
| PushRuns.GenerationHasOrigin | crates/persistence/src/lib.rs:3263-3271 | The present generation was opened by a successful restore. |
| PushRuns.PushNeedsBootstrap | crates/persistence/src/lib.rs:4474-4515 | A push is judged only for a device that finished a bootstrap of the present generation after the restore that opened it. |
| PushRuns.OldCursorIsRefused | crates/persistence/src/lib.rs:4317-4323 | A pull cursor of an older generation is never served again. |
| PushAnswers.PushAnswersItems | crates/persistence/src/lib.rs:4516-4660 | In every reachable state a judged push answers each item as the log it meets demands: a conflict exactly when the base is not the object's newest revision, else missing payload, size over 8, 5 or 10 MiB, wrong media type, or the next revision under the next sequence. |
| PushAnswers.ConflictExactly | crates/persistence/src/lib.rs:4518-4537 | Item k conflicts if and only if its base differs from the newest revision of its object after the items before it; the answer names the base as expected and that revision, or none, as actual. |
| PushAnswers.FreshPushIsAnswered | crates/persistence/src/lib.rs:4424-4515 | A push whose key has no unexpired record is answered by the first of: no project, not active, another generation, no completion; else it is judged unless a constraint fails, and only a judged push changes more than the records. |
| PushAnswers.SoundPushIsJudged | crates/persistence/src/lib.rs:4599-4650 | Past the guards a push is judged if every item is sound (a tombstone without schema and content, any other with a positive schema), and no judged push applies an item that is not. |
| PushAnswers.LogIsStorable | migrations/0001_init.sql:147-166 | In every reachable state every logged revision meets the table constraints and its content is catalogued under the row it references. |
| PushAnswers.BootstrappedDeviceMayPush | crates/persistence/src/lib.rs:4492-4515 | Once a device was served a last page, it is not refused a push under a fresh key while the project is active at that generation. |
| PushAnswers.RefusalsAreRepeated | crates/persistence/src/lib.rs:5859-5918 | A push refused for maintenance, generation or bootstrap is answered the same, with status 423 or 409, for 2,592,000 seconds, even when its reason is gone. |
| LeaseRuns.LostLeaseStaysLost | crates/persistence/src/lib.rs:2877-3108 | A worker whose token is once not the lease can never again change the job, the project or the heads. |
| LeaseRuns.TakeoverFences | crates/persistence/src/lib.rs:2731-2746 | After a job is claimed no older token holds it, forever. |
| RestoreProgress.StrangerStops | crates/worker/src/main.rs:105-178 | A worker that lost its lease changes nothing and stops at its next renewal, or through a retry that does nothing. |
| LeaseRuns.LeaseLastsFiveMinutes | crates/persistence/src/lib.rs:2689-2748 | For five minutes after a claim or a renewal nobody else can claim the job while its holder has not given it up. |
| LeaseRuns.OneActiveJob | crates/persistence/src/lib.rs:2538-2546 | At most one job of a project is queued or running, and it has fewer than three attempts. |
| LeaseRuns.TerminalForever | crates/persistence/src/lib.rs:2636-2663 | A terminal job row never changes again. |
| LeaseRuns.GenerationCountsRestores | crates/persistence/src/lib.rs:3263-3282 | The generation is one plus the number of succeeded restores, each of which moved it by one. |
| LeaseRuns.SuccessIsARestore | crates/persistence/src/lib.rs:3271-3282 | A job comes to have succeeded only by a worker's restore of this job that commits. |
| LeaseRuns.SuccessHasOrigin | crates/persistence/src/lib.rs:3271-3282 | In every run each succeeded job owes its success to one such restore. |
| LeaseRuns.CancelledNeverRestores | crates/persistence/src/lib.rs:2640-2662 | A job whose cancellation was accepted never succeeds and never changes a head. |
| RestoreProgress.CancellationCompletes | crates/worker/src/main.rs:109-115 | If a worker about to take its snapshot or to restore holds a job whose cancellation was requested, its next two answered calls leave the job cancelled without a lease and a project in maintenance active. |
| RestoreProgress.LateCancellationCompletes | crates/worker/src/main.rs:131-172 | A cancellation requested while the worker is between its snapshot and the restore is completed by the calls that remain. |
| JobAnswers.RestoreIsAcceptedExactly | crates/persistence/src/lib.rs:2524-2591 | A user's and an administrator's restore request are accepted in the same states: active project, no queued or running job, existing target; each adds one queued job and nothing else. |
| JobAnswers.RestoreRefusals | crates/persistence/src/lib.rs:5054-5145 | Which refusal each of the two forms gives in every other state. |
| JobAnswers.ClaimIsAcceptedExactly | crates/persistence/src/lib.rs:2701-2748 | A due job is claimed, for 300 seconds, exactly when the project is in maintenance or the job is queued and the project active; any other due job fails. |
| JobAnswers.SnapshotIsTakenExactly | crates/persistence/src/lib.rs:2342-2393 | A snapshot is taken exactly of an active project: pending, at its generation and sequence, of the newest rows. |
| DeviceRuns.DeviceHoldsItsCursor | crates/api/src/routes.rs:897-955 | In every run a synchronized device holds the newest rows up to its cursor, and the heads when the cursor is the end. |
| DeviceRuns.PullAdvances | crates/persistence/src/lib.rs:4327-4346 | A served pull moves the cursor forward, strictly while there is more, and ends with the heads. |
| ReadRuns.PullIsServedExactly | crates/persistence/src/lib.rs:4306-4358 | In every reachable state a pull is served if and only if the project is active, the generation is the present one and 0 <= after <= the sequence; every other case has its own error, and a served page holds exactly the entries after the cursor up to the limit. |
| ReadRuns.SyncedDeviceIsServed | crates/persistence/src/lib.rs:4317-4346 | A synchronized device of the present generation of an active project is always served; at the end of the log its page is empty, without more, and its cursor stays. |
| DeviceRuns.BootstrapDelivers | crates/api/src/routes.rs:834-899 | The pages of one bootstrap, ended on its first page or a later one, are exactly the manifest's items, each once, and give the newest rows at its sequence. |
| ReadRuns.PrepareIsServedExactly | crates/persistence/src/lib.rs:3387-3434 | A manifest is prepared if and only if the project is active, with its generation, its sequence and the newest rows. |
| ReadRuns.PageIsServedExactly | crates/persistence/src/lib.rs:3484-3558 | A manifest page is served exactly for an active project, a stored unexpired manifest of the present generation and an offset that is not negative; each other case has its error, and the page is that slice of the manifest. |
| ReadRuns.LastPageWrites | crates/persistence/src/lib.rs:3509-3549 | A page without more records its device's completion of the generation at the manifest's sequence; no other answer writes anything. |
| ReadRuns.ManifestIsServedForADay | crates/persistence/src/lib.rs:3441-3475 | For 86,400 seconds after it was recorded every page of a manifest is served, unchanged, while the project is active at its generation. |
| DeviceRuns.LastPageIsWholeExactly | crates/persistence/src/lib.rs:3518-3549 | A page without more always records the completion, and leaves its device with the whole manifest exactly when its offset is not past what the device keeps of it, or the manifest is empty. |
| DeviceRuns.OwnBootstrapIsWhole | crates/api/src/routes.rs:792-899 | A device that bootstraps by its own tokens and completes was served every item of the manifest. |
| BorrowedToken.BorrowedTokenCompletes | crates/api/src/routes.rs:795-828 | A run in which a device is recorded as bootstrapped, and has a push judged, without having been served the first item. |
| Requests.ValidPushIsAnswered | crates/api/src/routes.rs:3735-3791 | A push that passed the endpoint's checks is never refused with a database error, and an applied item gets the revision its client announced. |
| Requests.AnnouncedPushIsJudged | crates/api/src/routes.rs:969-1030 | A device that completed a bootstrap has every valid push under a fresh key judged item by item while the project is active at that generation. |
| Requests.ValidLimitsMakeProgress | crates/api/src/routes.rs:3610-3621 | Under every limit the endpoints pass on, pages hold at most a thousand rows, a bootstrap finishes with its whole manifest and a pull with more to come moves its cursor. |
| Requests.BootstrapCursorsVerify | crates/api/src/routes.rs:3634-3678 | A bootstrap answer carries exactly one cursor, it is accepted back and as no other kind, and devices keep just what it says. |
| Requests.PullCursorVerifies | crates/api/src/routes.rs:3655-3678 | A pull's next cursor is accepted back, keeps its generation and stands behind the last row served. |
| PayloadKeys.ParseInvertsKey | crates/object-store/src/lib.rs:693-718 | The parser inverts the key exactly on hashes of 64 characters without a slash. |
| PayloadKeys.KeysAreDistinct | crates/object-store/src/lib.rs:693-696 | No two payloads share an object key. |
| PayloadLocks.SweepTakesUploadLock | crates/worker/src/main.rs:444-462 | The sweep takes, for an object it found, the lock an upload of that object takes. |
| PayloadLocks.SweptNameIsValid | crates/object-store/src/lib.rs:699-718 | The sweep takes no lock but that of a payload an upload could name. |
| PayloadLocks.EventKeepsExactly | crates/worker/src/main.rs:425-462 | A step leads to a state where rows with a free lock are backed by their objects exactly when it is not one of the two losing ends of a collection. |
| LostObjects.UnacknowledgedDeleteLoses | crates/worker/src/main.rs:438-442 | A run in which the store deletes an object and reports a failure, and its row stays. |
| LostObjects.UncommittedRemovalLoses | crates/persistence/src/lib.rs:687-698 | A run in which the object is deleted and the deletion of its row does not commit. |
| PayloadLocks.RowsAreBacked | crates/api/src/routes.rs:676-724 | However uploads, collections, sweeps and purges interleave without a losing end, a free lock's row has its object, and a revision's payload is stored at every moment. |
| PayloadLocks.UploadArrives | crates/api/src/routes.rs:676-724 | An upload to its owner's active project whose steps succeed leaves the payload registered, its object stored under its key and the lock free. |
| PayloadLocks.CollectionRemoves | crates/worker/src/main.rs:429-445 | A collection whose steps succeed removes exactly the row and the object of an old unused payload. |
| PayloadLocks.SweepDeletesOrphans | crates/worker/src/main.rs:450-468 | A sweep deletes the object of a payload without a row and spares one with a row. |
| ProjectPurge.Tables.Prepare | crates/persistence/src/lib.rs:4139-4228 | The detach statements and the stored key list, or the stored list again. |
| ProjectPurge.Tables.Complete | crates/persistence/src/lib.rs:4234-4268 | Only the holder of an unexpired lease completes. |
| ProjectPurge.Tables.Fail | crates/persistence/src/lib.rs:4273-4298 | The holder's failure requeues the job below five attempts and fails it otherwise. |
| ProjectPurge.PrepareMeaning | crates/persistence/src/lib.rs:4156-4226 | The first detach removes every row and lists exactly the project's object keys, each once; later calls return that list and change nothing. |
| ProjectPurge.RetriesGetTheSameList | crates/persistence/src/lib.rs:4139-4228 | Every later worker of a job is given the list the first was given, and no row comes back. |
| ProjectPurge.SucceededPurgeDeletedAll | crates/worker/src/main.rs:200-222 | Across crashes and takeovers, a succeeded job detached its project and had every key on its list deleted with acknowledgement. |
| ProjectPurge.ClaimedPurgeIsCarriedOut | crates/worker/src/main.rs:200-222 | A due purge that is left alone is carried out: a claim, the detach, one call per key and the completion leave no row, and the job succeeded with exactly the project's keys. |
| ProjectPurge.FailedPurgeIsTriedAgain | crates/persistence/src/lib.rs:4273-4298 | A failed deletion leaves the job due 60 seconds later below the fifth attempt and failed from then on. |
| PurgeRuns.LostPurgeStaysLost | crates/persistence/src/lib.rs:4139-4298 | A worker whose token is once not the lease of a purge job never changes anything again: it is refused the key list, completes nothing and fails nothing. |
| PurgeRuns.TakeoverFencesPurge | crates/persistence/src/lib.rs:3609-3640 | In every run a claim of a purge job shuts out its former holder for good. |
| PurgeInService.ServiceAllowsPurge | crates/persistence/src/lib.rs:4185-4211 | No event of the service brings a row of a detached project back. |
| PurgeInService.ProjectGoesOnlyByPurge | crates/persistence/src/lib.rs:4156-4226 | An event ends a project if and only if it detaches a project that is being deleted, or its account; then no row is left, and any other detach changes nothing. |
| RefreshTokens.Store.Rotate | crates/persistence/src/lib.rs:1343-1465 | Rotation, grace rotation, reuse detection and every refusal, as `RotateTx` says, which `RotationRuns.RotationIsAcceptedExactly` determines. |
| RefreshTokens.Store.Login | crates/persistence/src/lib.rs:1267-1306 | A login opens a new family for an active user and a usable device. |
| RefreshTokens.RunKeepsFamilies | crates/persistence/src/lib.rs:1360-1465 | In every state of every run the members of a family share one user and device, and at most four are active. |
| RefreshTokens.FamilyKeepsHolder | crates/persistence/src/lib.rs:1445-1451 | A family found at two moments of a run has the same user and device at both. |
| RefreshTokens.RotationIsBounded | crates/persistence/src/lib.rs:1376-1395 | A rotation is accepted only while its family is alive, and a spent token only within the grace window. |
| RefreshTokens.DeadForever | crates/persistence/src/lib.rs:1376-1429 | Once a family has no active member, no token of it is ever accepted again. |
| RefreshTokens.ReuseKillsFamily | crates/persistence/src/lib.rs:1396-1424 | A spent token outside grace is reported as reuse, and reuse or a logout of its device leaves the family dead. |
| RotationRuns.RotationIsAcceptedExactly | crates/persistence/src/lib.rs:1360-1465 | A token is accepted if and only if it is admissible and either untouched or used at most 30 seconds ago in a family of one to three live members; it is reuse if and only if it was touched and is not so racing. |
| RotationRuns.RotationWrites | crates/persistence/src/lib.rs:1396-1455 | What an accepted rotation, a detected reuse and every other refusal write, row by row. |
| RotationRuns.RacingRequestIsAccepted | crates/persistence/src/lib.rs:1376-1436 | Over runs: after an accepted rotation the same token presented again within 30 seconds, its family having one to three live members, is accepted for the same session, whatever happened between; after 30 seconds it is reuse. |
| RotationRuns.LoginIsAcceptedExactly | crates/persistence/src/lib.rs:1267-1306 | A login is accepted exactly for an active user on a new or own unrevoked device, and opens a family no token has had. |
| RateLimiter.AuthRateLimiter.AllowRequest | crates/api/src/auth.rs:104-126 | The limiter's step on its mutable windows, as `Allow` says, which `LimiterRuns.AllowedExactly` determines. |
| RateLimiter.SpanIsBounded | crates/api/src/auth.rs:104-126 | In any half-open span of sixty seconds at most 240 requests are allowed per key. |
| LimiterRuns.CapacityNeedsManyKeys | crates/api/src/auth.rs:112-114 | A call is refused for want of capacity only if at least 10,000 distinct other keys were called in the 120 seconds before it. |
| LimiterRuns.AllowedExactly | crates/api/src/auth.rs:104-126 | As long as at most 10,000 keys are called within two minutes, a call is allowed if and only if it is among the first 120 calls of its key's window, as told by the calls alone. |
| LimiterRuns.First120AreAllowed | crates/api/src/auth.rs:116-124 | In the sixty seconds from a window's start the first 120 calls of its key are allowed and every later one is refused, whatever other keys do. |
| LimiterRuns.WindowOpensAllowed | crates/api/src/auth.rs:116-119 | A key's first call, and its first call sixty seconds or more after the start of its window, is allowed. |
| RateLimiter.CapacityIsKept | crates/api/src/auth.rs:112-114 | The limiter never holds more than 10,000 keys. |
| RateLimiter.KeysAreDistinct | crates/api/src/auth.rs:275-293 | Distinct pairs of operation and key never share a window. |
| RateLimiter.CleanupIsInvisible | crates/api/src/auth.rs:105-111 | As long as no call is refused for want of capacity, answers are those of a limiter that never prunes, and the first such refusal is the first difference. |
| LikePattern.LikePatternLiteral | crates/api/src/routes.rs:2805-2814 | The escaping loop computes the escaped term. |
| LikePattern.SearchMatchesLiterally | crates/persistence/src/lib.rs:4872-4876 | The search pattern built from an escaped term matches a text exactly when the text contains the term. |

## Left out

- Several projects at once: the model follows one project's rows, and claims are per project; the order in which claims pick jobs is left open.
- Row-level security, roles, audit rows, timestamps that only document, error codes and reasons on job rows.
- HTTP, JSON, SQL text, signatures, hashing and the bytes of manifests: a manifest is its rows, and a recorded snapshot keeps the manifest it was taken with because its hash must match.
- The change sequence kept inside snapshot rows, which no restore reads; row orders by kind and id, which are parameters.
- Integer widths of sequences, revisions and generations, which are unbounded here; only the revision check of the endpoint has its overflow test.
- Media types are represented by their normalized essence, and text by characters that stand for bytes; case folding in searches is not modelled.
- Persistence.Database.ClaimRestoreJob: does not model in which order the jobs of several projects are claimed, because the model follows one project, which has at most one row to claim.
- The programs of the worker are program counters with one call per step, so their loops over jobs and keys are runs of the model; what a process reports or logs is not represented.
- PayloadLocks.RowsAreBacked: assumes, beside the absence of losing ends, that a section ends with its lock released; a process that dies inside one, or a connection returned to its pool inside a transaction, is not modelled.
- Refresh rotations are atomic steps; two rotations of different tokens of one family that overlap inside the database are not modelled.
- RateLimiter.SpanIsBounded: one clock reading serves a whole call, where the code reads the clock several times.
- The deletion of temporary uploads, snapshot and bootstrap objects by key pattern, the job, the export and the retries of the account purge, of which the effects on a project's rows are events of the service, and the shared rate-limit table.
- Listing, account, invitation, administration and metrics endpoints, and the variants of restore and bootstrap calls without a lease or manifest, which the server and the worker do not use.
