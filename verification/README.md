# Verified model of the Baidu to Drive mover

A Dafny 4.11 model of the durable migration protocol: a SQLite store that tracks every
file from DISCOVERED to DONE, and the engines that drive it through staging on Baidu,
download, upload to Drive and cleanup.

## How to read it

Everything that survives a crash is one value (`Durable.Snap`): the tables, the cache
directory, the staging tree on Baidu and the Drive folder. Class `Worlds.World` holds it;
each of its methods takes one atomic step (a committed transaction or one effect outside)
and appends it to a ghost history. A crash is a prefix of that history, a restart goes on
from its last state, so a statement about all states of all histories is a statement about
all crashes. Failures, answers of remotes, cancellation and unspecified query orders are
nondeterministic choices. `quiet` worlds have no faults; in `honest` ones listings are
true, transfers add only what was asked for and downloads serve the true bytes.

`transactions.dfy` states declaratively what each transaction does to the tables. The
methods in the `*_store.dfy` files follow the Go code statement by statement and are proved
to do exactly that (`Committed`) or nothing (`Same`).

`laws.dfy` lists for every kind of step the evidence that must be on record before it is
taken, for example: a deletion needs its permission, a copyto a listing without the file, a
staging confirmation enough cache, every staging step that it is the batch's turn (the first
one left to stage and admitted, everything found planned, a file waiting). Every engine is proved to take lawful steps only, against
any remote; `safety.dfy`, `delivery.dfy`, `capacity.dfy`, `recovery.dfy` and `migration.dfy`
prove what lawful steps add up to over whole runs. Where a property does not hold of the code,
`story.dfy` and `comeback.dfy` lead a run of lawful steps, in the order in which the scheduler and
the engines take them (but for the notes in the task row, which no later guard reads), to a state without it.

| file | part of the program |
|---|---|
| model, tables, transactions, invariant, runs, counting | status table, schema, transactions, protocol invariant, runs of the store, counting gates |
| durable, world, laws | durable state and its atomic steps, the world the engines act on, the evidence each step needs |
| planner, planning_store, staging_store, stager, stage | batch planning, staging transactions, staging executor, admission |
| download_api, download_store, download | range requests, download transactions, download engine |
| drive_store, upload | Drive transactions, uploader |
| cleanup, cleanup_engine, recovery | cleanup steps, cleanup engine, restart equivalence |
| restaging, deferral, turns, statuses | cleaned directories, batches deferred for ever, the order of the batches, the status table: what holds, and exactly when |
| story | runs of lawful steps, and the one that leads to a batch deferred for ever |
| comeback | the run in which a cleaned directory comes back, a DONE file is taken back, and the task is stuck |
| progress, pipeline_store, runners, pipeline | counters, passes, scheduler |
| manifest_store, scanner, scan_log, share, scan | manifest pages, share scanner, what a scan has on record, honest shares |
| pageparse, page_search | object-boundary scanners of the share page, the search in it and its budgets |
| capacity, safety, delivery, migration | properties of all runs, from the first page of the scan to COMPLETED |

## Where the code and its declared rules differ

- The declared transition table is not the rule the updates follow: `Statuses.StatusChanges` says
  exactly when a transaction leaves it, `Statuses.RunsLeaveTable` what is left of that in the
  engines' runs, `Comeback.EachCaseOccurs` that each case occurs. A batch that a crash left in
  STAGING and that fails for good when it is taken up again takes verified files back, even DONE
  ones (`Comeback.DoneIsTakenBack`).
- Cleanup ignores the batch status, so a batch left in STAGING by a crash is cleaned like any other.
  If it is the first in line when some other file calls for a staging pass, it is taken up again,
  and the cleaned directory stands again (`Comeback.CleanedAndBack`); from then on the task is never COMPLETED
  (`Comeback.CleanedAndStuck`, `Restaging.NeverCompleted`). An absent directory never comes back if
  its batch is not stageable (`Restaging.NeverBack`) or no file is left to stage
  (`Restaging.NoneBackWithoutWork`, so never in a task of one batch that is cleaned). When nothing
  but staging is left to do, a cleaned directory comes back exactly if its batch is stageable, a file
  waits to be staged and the cache admits the next pass (`Turns.CleanedStaysAwayIff`). A cleaned
  cache file always stays absent.
- The admission check counts a batch's own cached files twice (`Stage.AdmissionOvercounts`), so a
  batch that would fit can be deferred for ever (`Story.DeferredThoughItFits`,
  `Deferral.WedgedForEver`), and once nothing but staging is left to do that is the only way in which
  a batch with a file to be staged is (`Turns.StartsUnlessWedged`). Termination of the scheduler is proved, completion is not.
- The bounded planner closes an exactly full batch before a zero-byte file, which can cost one
  batch each time and no more (`Planner.BoundedCutsNearMinimal`, `Planner.ZeroSizeNotMinimal`). That
  none is closed early is sufficient for a minimal plan and not necessary: sizes 10, 0, 5 at a limit
  of 10 close one early at no cost (`Planner.EarlyAtNoCost`). Where no directory holds more files
  than a batch may, the plan is minimal exactly if none is closed in vain, with only empty files
  behind it up to the end of the directory or an oversized file (`Planner.MinimalInRoomy`); in
  general exactly if filling on would save none (`Planner.MinimalIff`).
- `openObjectStack` knows three kinds of quotes, `balancedObject` one (`PageParse.SingleQuoteMisleads`).

## Assumptions

- A transaction is atomic and durable; one process works on one task; MaxBatches is 1, as the
  main program sets it.
- Digests compare exactly and are never empty when computed; hashes used as page fingerprints
  and as seen-text marks are collision-free. Colliding batch IDs are modelled: the plan rolls back.
- Restart equivalence starts where remote directories still to be deleted hold only files of their
  batch, since the engine stops at anything else. In every lawful run that is so if copies have the
  sizes the manifest gives (`Delivery.LawfulIsOrderly`).
- What a completed migration holds of the share is stated for a share listed truthfully
  (`Rules.share`); failed requests and interrupted scans are included.
- A share page is a string whose characters stand for its bytes.
- Statements about Drive objects assume true listings and no other writer to the task folder;
  those about sources staged once and about cache contents assume an honest Baidu.

## Model

| member | source | states |
|---|---|---|
| Statuses.StatusChanges | internal/state/model.go:101-130 | a committed transaction takes a file off the declared transition table if and only if one of three conditions, known before the call, holds |
| Statuses.RunsLeaveTable | internal/state/staging_store.go:361-389 | in the engines' runs only one of them ever arises: a permanent staging failure of a batch with a file already verified; it overwrites even DONE |
| Comeback.EachCaseOccurs | internal/state/staging_store.go:361-389 | each of the three is met in a store that a run leads to, the third by a step that is lawful there itself |
| Comeback.DoneIsTakenBack | internal/state/staging_store.go:361-389 | a run leads to a DONE file which a permanent staging failure makes FAILED_PERMANENT: its batch, interrupted before it was recorded as staged, is taken up again on the way to the next one and meets a transfer conflict |
| Delivery.RankNeverFalls | internal/state/staging_store.go:217-389 | over any stretch of any run a file keeps or raises its pipeline rank or sinks into FAILED_PERMANENT for good; FAILED_RETRYABLE is never reached |
| Invariant.OpKeeps | internal/state/store.go:166-242 | every transaction with any arguments, committed or refused, keeps the protocol invariant and only moves the tables forward |
| Runs.RunConsistent | internal/state/store.go:166-242 | the protocol invariant holds in every state of every run of the store |
| Runs.RunForward | internal/state/drive_store.go:199-275 | between any two moments of a run identities, memberships, permissions and a persisted Drive ID are never taken back |
| Runs.VerifiedBefore | internal/state/drive_store.go:241-275 | a file in cleanup or done was DRIVE_VERIFIED before, under a non-empty Drive ID every later state carries |
| Runs.PermissionMeansVerified | internal/state/cleanup_store.go:98-219 | permission to delete a batch directory, found anywhere in a run, means every file of the batch had been verified for good by then |
| Runs.ManifestWriteOnce | internal/state/manifest_store.go:26-103 | in every run file and directory paths are disjoint, source ID to path is a write-once injection and a known MD5 never changes |
| Counting.LocalCountGate | internal/state/cleanup_store.go:333-344 | as many local provenance rows as files, if and only if each file has its row |
| Counting.CompletionGate | internal/state/cleanup_store.go:308-385 | the counts of CompleteBatchCleanup hold if and only if every file is CLEANUP_PENDING with its own permitted and cleaned row and the batch row is too |
| Counting.RootCountGate | internal/state/cleanup_root.go:57-70 | where only planned batches have provenance, equal counts hold if and only if every single batch is cleaned |
| Counting.PendingCount | internal/state/cleanup_store.go:314-324 | the count of files outside CLEANUP_PENDING is zero if and only if there is none |
| Planner.BoundedCutsLegal | internal/state/staging_bounded.go:72-145 | the bounded planner's batches are consecutive, non-empty, of one parent, within both limits unless a single file, and cover the list |
| Planner.BoundedCutsNearMinimal | internal/state/staging_bounded.go:72-145 | for every list: against any legal consecutive partition the plan has at most as many batches too many as it closes exactly full ones before an empty file |
| Planner.BoundedCutsMinimal | internal/state/staging_bounded.go:72-145 | if it closes none early, no legal consecutive partition has fewer batches |
| Planner.PositiveNeverEarly | internal/state/staging_bounded.go:83-93 | with positive sizes it closes none early |
| Planner.EagerStaysAhead | internal/state/staging_bounded.go:80-93 | a planner that fills on past exactly full batches is minimal on every list |
| Planner.MinimalIff | internal/state/staging_bounded.go:72-145 | for every list: the plan is minimal if and only if it has as many batches as that planner's |
| Planner.VainClosesCost | internal/state/staging_bounded.go:80-93 | where no directory holds more files than a batch may: the surplus is exactly the number of batches closed in vain, with only empty files behind them up to the end of the directory or up to an oversized file |
| Planner.MinimalInRoomy | internal/state/staging_bounded.go:80-93 | there the plan is minimal if and only if no batch is closed in vain |
| Planner.EarlyAtNoCost | internal/state/staging_bounded.go:91-93 | sizes 10, 0, 5 at a limit of 10: one batch is closed early, none in vain |
| Planner.ZeroSizeNotMinimal | internal/state/staging_bounded.go:83-93 | a zero-byte file after an exactly full batch: one closed early, one batch too many |
| Planner.PlannersAgree | internal/state/staging_store.go:76-137 | below the byte limit both planners cut the list at the same places |
| PlanningStore.FillBatch | internal/state/staging_bounded.go:80-93 | the fill loop stops where the specification says, with the byte total of the batch |
| PlanningStore.InsertBatch | internal/state/staging_store.go:94-126 | one batch's rows are written all together, or refused exactly when its ID is taken or a file is not plannable |
| PlanningStore.PlanBatchesBounded | internal/state/staging_bounded.go:14-151 | one transaction commits exactly the plan over the listed discovered files, or nothing; without faults it refuses only on a clash of batch IDs |
| PlanningStore.DiscoveredArePlanned | internal/state/staging_bounded.go:72-145 | when the plan commits, every file that was discovered is planned |
| PlanningStore.ChunksCover | internal/state/staging_bounded.go:72-145 | the planned batches, one after the other, hold exactly the listed files |
| PlanningStore.BoundedPlanMinimal | internal/state/staging_bounded.go:72-145 | a whole bounded plan leaves nothing out, repeats nothing and has the fewest batches possible but for those closed early; with positive sizes the fewest possible |
| PlanningStore.PlansAgree | internal/state/staging_bounded.go:15-17 | below the byte limit the bounded plan equals the unbounded one, batch IDs included |
| StagingStore.StagingBatches | internal/state/staging_store.go:159-190 | stageable batches with their files in ascending order of batch ID: all of them, or the first maxBatches |
| StagingStore.StartBatch | internal/state/staging_store.go:217-243 | commits exactly when the batch is pending, staging or failed retryably |
| StagingStore.ConfirmStaged | internal/state/staging_store.go:284-307 | succeeds exactly when every file is waiting or already confirmed at the very same path, and yields exactly the confirmed rows |
| StagingStore.ValidateStaged | internal/state/staging_store.go:265-283 | accepts exactly confirmations at the derived path of a file of the batch |
| StagingStore.RecordStagedFiles | internal/state/staging_store.go:245-309 | one transaction confirms all listed files or none; an empty confirmation touches nothing |
| StagingStore.RemainingCount | internal/state/staging_store.go:333-349 | the count of unstaged files is zero if and only if all are staged or further on |
| StagingStore.CompleteBatch | internal/state/staging_store.go:327-359 | commits only when every file of the batch is staged or further on |
| StagingStore.FailBatch | internal/state/staging_store.go:361-389 | a permanent failure overwrites every status except BAIDU_STAGED; a retryable one only the batch |
| Stager.Reconcile | internal/staging/stager.go:186-244 | what it reports missing is, on a truthful remote, exactly what is absent; everything else is recorded as staged or further on |
| Stager.ListingTells | internal/staging/stager.go:205-236 | a truthful listing that passes the checks tells for every file of the batch whether it is there |
| Stager.Send | internal/staging/stager.go:114-118 | a transfer is only asked for files that have not appeared, and makes no other file of the batch appear |
| Stager.TransferSubset | internal/staging/stager.go:104-161 | terminates against any remote with at most A(2n-1) TransferFiles calls on n files and A attempts, though progress resets the counter; success means all n are staged or further on |
| Stager.TransferSplit | internal/staging/stager.go:163-184 | terminates against any remote with at most A(2n-2) calls, in at least two smaller portions; success means all n are staged or further on |
| Stager.SubsetBudget | internal/staging/stager.go:113-158 | the arithmetic of the call bound: earlier levels, this level and a split of what is missing |
| Stager.StageBatch | internal/staging/stager.go:75-102 | success means every file is staged or further on, and on a truthful remote present; the call bound holds for the whole batch |
| Stager.TurnKept | internal/staging/stager.go:75-102 | staging a batch keeps its turn: it stays the first one left to stage and admitted, with the same files not come to their download |
| Stager.ClaimKept | internal/staging/stager.go:75-102 | staging a batch never changes the cache space it claims |
| Stage.Admit | internal/app/stage.go:106-130 | passes if and only if every batch about to be staged is within the cache and the present capacity; otherwise names the first that is not, an error beyond the cache, deferred within it |
| Stage.ClaimOfFirst | internal/app/stage.go:93-130 | an admitted batch, staged completely, fits the cache if nothing else is staged |
| Stage.AdmissionOvercounts | internal/app/stage.go:112-112 | the check is too strict by exactly the batch's own bytes already in the cache |
| Stage.AdmittedIff | internal/app/stage.go:112-112 | a batch passes if and only if it fits with its own cached bytes counted twice |
| Deferral.WedgedForEver | internal/app/stage.go:112-129 | a stageable batch with a file still to be staged that is larger than the cache together with its own verified files is refused in every later state of every lawful run, through restarts, uploads and cleanups, and the task is never COMPLETED |
| Turns.StartsUnlessWedged | internal/app/stage.go:93-129 | exactly: when nothing but staging is left to do, the first batch with a file still to be staged is started again in some lawful continuation if and only if it is not such a batch |
| Turns.OnlyItsOwn | internal/app/stage.go:93-129 | then the cache holds verified files of that batch and nothing else |
| Turns.AlwaysInOrder | internal/app/stage.go:61-75 | in every state of every lawful run: behind a batch still to be staged no other one was touched, all are planned before the first is touched, what is settled has no file left to stage, and a batch is cleaned as a whole |
| Restaging.StuckForEver | internal/app/stage.go:112-129 | when nothing but staging is left to do and the cache refuses the next pass, no file and no batch ever changes again in any lawful run, and the task is never COMPLETED |
| Restaging.StartsIff | internal/app/stage.go:93-129 | when nothing but staging is left to do, the first batch is started again in some lawful continuation if and only if the cache admits it now |
| Story.DeferredThoughItFits | internal/app/stage.go:112-129 | a run leads to such a batch, first in line and small enough for the cache |
| Stage.StageSessions | internal/app/stage.go:136-160 | a second session only ever takes up a batch that still fits; success means the first batch there was is staged |
| Stage.Run | internal/app/stage.go:77-182 | every step of a staging pass is lawful: it never overcommits the cache, and takes up only the first batch left to stage, after everything found was planned; success means a batch not staged before is staged, or none is left to stage |
| Stage.ExecutorRun | internal/staging/stager.go:54-73 | one batch at a time, staged on success; after a retryable failure it is still the first and still fits |
| Capacity.OnlyStagingAdds | internal/state/download_store.go:42-153 | no transaction but the recording of staged files raises what the cache may come to hold |
| Capacity.PotentialBounded | internal/app/pipeline.go:135-158 | in every state of every lawful run reserved plus staged bytes are within MaxCacheBytes |
| Capacity.StagedFileFits | internal/download/engine.go:109-121 | a staged file always passes the download engine's capacity check within the bound |
| DownloadStore.ReservedCacheBytes | internal/state/download_store.go:142-153 | the sum of the full sizes of all files that hold cache |
| DownloadStore.MarkLocalReady | internal/state/download_store.go:62-113 | commits exactly at the derived path, from an eligible status, with a fresh or unused provenance row |
| DownloadStore.StartDownload | internal/state/download_store.go:42-60 | commits exactly for a staged or downloading file |
| DownloadStore.RecordDownloadFailure | internal/state/download_store.go:115-137 | commits exactly for a staged or downloading file, permanently or as a retry |
| DownloadApi.ContentRangeRoundTrip | internal/baidu/download_api.go:136-163 | a Content-Range written as section 14.4 of RFC 9110 prescribes is parsed back exactly |
| DownloadApi.OpenedServes | internal/baidu/download_api.go:43-122 | any stream handed on carries the true bytes from the requested offset, given a server that keeps to RFC 9110 |
| Download.VerifyExisting | internal/download/engine.go:320-342 | Good only for a present file of the right size and, where known, the right MD5 |
| Download.CopyStream | internal/download/engine.go:274-318 | the partial file grows by a prefix of the true bytes at its end, also when interrupted |
| Download.FetchLoop | internal/download/engine.go:189-264 | terminates although a range reset decrements the counter, with at most 2A requests |
| Download.DownloadOne | internal/download/engine.go:139-272 | success means LOCAL_READY; otherwise the file still waits; at most 2A requests |
| Download.Promote | internal/download/engine.go:166-178 | rename and LOCAL_READY happen only on a partial file that checks out |
| Download.Run | internal/download/engine.go:77-137 | ends with no file waiting unless it fails; within the bound it is never paused by the watermark; counts the files it made ready |
| DriveStore.SetTaskDriveRoot | internal/state/drive_store.go:12-55 | root ID and name are write-once |
| DriveStore.StartDriveUpload | internal/state/drive_store.go:176-193 | commits exactly from LOCAL_READY or DRIVE_UPLOADING |
| DriveStore.RecordDriveUploaded | internal/state/drive_store.go:199-239 | commits exactly for an upload candidate without another persisted ID |
| DriveStore.MarkDriveVerified | internal/state/drive_store.go:241-275 | commits exactly under the persisted ID from DRIVE_UPLOADED or DRIVE_VERIFIED |
| DriveStore.RecordDriveFailure | internal/state/drive_store.go:277-305 | commits exactly in a Drive-recoverable status, keeping it unless permanent |
| Upload.CopyUntilSeen | internal/drive/upload.go:139-184 | at most three copyto calls, each only while Drive shows nothing at the path; it returns only with exactly one object listed |
| Upload.ListedIsStored | internal/drive/upload.go:221-233 | a true listing of one verified object proves where, how large and under which MD5 the file is stored, and that it is alone |
| Upload.VerifyPersistedRemote | internal/drive/upload.go:210-235 | verified only after a second look at the cache file and at Drive agree |
| Upload.UploadOne | internal/drive/upload.go:105-194 | success if and only if the file becomes DRIVE_VERIFIED; no other row changes; every step lawful |
| Upload.Run | internal/drive/upload.go:63-103 | ends with no upload candidate left unless one fails; counts the files it verified |
| Delivery.DriveAlwaysFaithful | internal/drive/upload.go:105-235 | in every state of every lawful run no two Drive objects share a path, a verified file's ID names the one at its own, and a DRIVE_VERIFIED file's object matches its cache file |
| Delivery.SourceInDrive | internal/drive/upload.go:105-235 | the Drive object of every verified or DONE file has the MD5 of its source, up to the manifest's size |
| Delivery.DeletedIsInDrive | internal/cleanup/engine.go:100-174 | whatever a cleanup deletes, the sources of the whole batch are in Drive at that moment |
| Delivery.LawfulIsOrderly | internal/cleanup/engine.go:139-171 | where copies have the manifest's sizes, a cleanup meets what it needs in every state of every run |
| Delivery.VerifiedByMark | internal/state/drive_store.go:241-275 | a transaction verifies a file by MarkDriveVerified only |
| Worlds.World.CleanupCandidates | internal/state/cleanup_store.go:53-93 | batches whose files are all verified or in cleanup, in ascending order of batch ID: all of them, or the first ones up to the limit |
| Worlds.World.AuthorizeBatchCleanup | internal/state/cleanup_store.go:98-219 | one transaction gives permission for all objects of an eligible batch, or nothing happens; what it returns is read back |
| Worlds.World.BackfillProvenance | internal/state/cleanup_store.go:177-194 | missing provenance is added; refused exactly when a present row names another path |
| Worlds.BackfilledRows | internal/state/cleanup_store.go:177-214 | row-by-row backfilling and permitting is what the declarative form says |
| Worlds.World.GetAuthorizedCleanupBatch | internal/state/cleanup_store.go:221-266 | hands out a batch only with every file pending and permitted |
| Worlds.World.MarkCleanupObjectDone | internal/state/cleanup_store.go:268-288 | only a permitted object of a deletable kind can be marked |
| Worlds.World.CompleteBatchCleanup | internal/state/cleanup_store.go:308-385 | decided by counts, it commits exactly when every file and object qualifies |
| Worlds.World.TaskRootCleanupCandidate | internal/state/cleanup_root.go:16-41 | true exactly when the root is registered, not cleaned, all files DONE and all batches cleaned |
| Worlds.World.AuthorizeTaskRootCleanup | internal/state/cleanup_root.go:43-102 | decided by counts, it commits exactly when all files are DONE, all batches cleaned and the root registered at its derived path |
| Cleanup.DeleteRemoteBatch | internal/cleanup/engine.go:139-171 | deletes only after a listing without anything unexpected; on success the directory is gone |
| Cleanup.CleanupBatchObjects | internal/cleanup/engine.go:100-174 | success means the batch can be completed; without faults and foreign objects it succeeds; every step has its evidence on record |
| CleanupEngine.CleanupTaskRoot | internal/cleanup/engine.go:176-224 | the root is deleted only when due, permitted and just seen empty; without an error it is not due any more, and nothing but its own row has changed |
| CleanupEngine.CompleteAchieves | internal/state/cleanup_store.go:308-385 | completing a batch makes exactly its files DONE |
| CleanupEngine.Run | internal/cleanup/engine.go:47-98 | without faults and foreign objects it ends in exactly the state Final describes; its summary counts the files and bytes that became DONE; success leaves no candidate within the limit and no due root |
| CleanupEngine.RunAfterCrash | internal/cleanup/engine.go:47-174 | started again after a crash anywhere in an earlier run, it goes on from the interrupted history by lawful steps and ends in the state an uninterrupted run would have ended in |
| CleanupEngine.FinalResult | internal/cleanup/engine.go:47-174 | in that state every candidate batch is DONE and its rows cleaned; an object of it is left if and only if it was there although its row said cleaned; all else is as it was |
| Recovery.LegalRunKeeps | internal/cleanup/engine.go:47-224 | every state a cleanup passes through leads to the same final result as its first one |
| Recovery.FinishedIsFinal | internal/cleanup/engine.go:86-97 | a finished cleanup has nothing left to change |
| Safety.LocalDeletionSafe | internal/cleanup/engine.go:119-137 | a cache file is removed only with its permission committed and its whole batch verified for good |
| Safety.BatchDeletionSafe | internal/cleanup/engine.go:139-171 | the same for a batch directory on Baidu |
| Safety.RootDeletionSafe | internal/cleanup/engine.go:176-224 | the task root is deleted only with all files DONE and verified for good, all batches cleaned and the listing just before empty |
| Safety.NothingElseDeleted | internal/cleanup/engine.go:100-224 | nothing else disappears in any run: from Baidu only a whole batch directory by its own permitted deletion, from the cache only in cleanup or while the file is being downloaded |
| Safety.CleanedStaysGone | internal/cleanup/engine.go:119-137 | a cache file recorded as cleaned is gone and never comes back |
| Restaging.NeverBack | internal/cleanup/engine.go:139-171 | once its batch cannot be staged any more, an absent batch directory never comes back, in any lawful run |
| Restaging.CleanedDirectoryAbsent | internal/cleanup/engine.go:139-171 | a batch directory recorded as cleaned is absent if the batch could not be staged any more when it was marked |
| Restaging.NoneBackWithoutWork | internal/app/pipeline.go:149-150 | once every file found has come to its download, no absent batch directory ever comes back, not even that of a batch left in STAGING |
| Restaging.ComesBack | internal/app/pipeline.go:149-153 | when nothing but staging is left to do, some file waits for it, and the batch is the first in line and admitted, its directory comes back, cleaned or not |
| Restaging.StaysAwayIff | internal/state/cleanup_store.go:57-74 | when nothing but staging is left to do: an absent directory stays absent in every lawful continuation if and only if its batch is not stageable, no file waits to be staged, or the cache refuses the next pass; a batch behind another one that is admitted is left open |
| Turns.CleanedStaysAwayIff | internal/state/cleanup_store.go:57-74 | for a directory recorded as cleaned nothing is left open: its batch, if stageable, is the first in line |
| Restaging.CleanupLeavesNothing | internal/cleanup/engine.go:47-174 | a cleanup from any state of a run leaves no object of a candidate batch that was settled when marked |
| Story.SomeSetting | internal/drive/upload.go:105-235 | the world these runs take place in exists: true remotes and two one-byte sources, for any cache size |
| Comeback.GoesThrough | internal/app/pipeline.go:99-158 | any planned one-file batch whose turn it is can be staged, downloaded, uploaded and cleaned by lawful steps, whether or not a crash keeps it from being recorded as staged |
| Comeback.CleanedAndBack | internal/state/cleanup_store.go:57-74 | a run with two batches and a cache for one: the first, left in STAGING by a crash, is DONE and cleaned and yet the next one the scheduler starts; then its cleaned directory stands again |
| Comeback.CleanedAndStuck | internal/cleanup/engine.go:139-171 | the run goes on to the end: every file is DONE, every batch recorded as cleaned, and that directory still stands |
| Restaging.NeverCompleted | internal/cleanup/engine.go:176-224 | from there on no lawful run ever empties the task root or marks the task COMPLETED |
| Story.Delivers | internal/download/engine.go:139-272 | any staged file can be brought to DRIVE_VERIFIED by lawful steps |
| Safety.CacheIsPrefix | internal/download/engine.go:139-318 | in every state partial and complete cache files are a beginning of the source |
| Safety.LocalReadyIsSource | internal/download/engine.go:139-318 | a LOCAL_READY file's cache file is the source, if and only if the manifest's size is the source's |
| Safety.ReadyKeepsBin | internal/state/download_store.go:62-113 | from LOCAL_READY until its cleanup a file has its cache file at full size |
| Delivery.EachSourceOnce | internal/staging/stager.go:75-244 | of each source there is at most one object in all batch directories together, and a transfer never asks for one that stands anywhere |
| Delivery.CompletedMeansDelivered | internal/app/pipeline.go:77-119 | when a run marks the task COMPLETED, the scan is recorded as complete and every file was verified for good, permitted and cleaned |
| Migration.AlwaysFaithful | internal/state/task_store.go:64-83 | on a share listed truthfully the tables hold a part of it while the scan runs, through any interruptions, and exactly its files ever after |
| Migration.CompletedMeansMigrated | internal/app/pipeline.go:77-119 | when a run marks the task COMPLETED, exactly the share's files are DONE and Drive holds exactly one object at the path of each, of its size and with the MD5 of its source |
| Migration.ScanTask | internal/app/scan.go:154-205 | the scan is recorded as complete only when it was |
| Migration.Migrate | internal/app/pipeline.go:55-204 | scan and scheduler, started after any lawful history and any crash: Completed means the whole share is in Drive |
| Progresses.FilesDoneMeans | internal/state/pipeline_store.go:30-34 | Done == Total if and only if every single file is DONE |
| Progresses.CompleteMeans | internal/state/pipeline_store.go:30-34 | the Complete predicate on counters, as a statement about all rows |
| Progresses.ProgressAdvances | internal/app/pipeline.go:173-183 | without permanent failures different counters mean that a rank or a task fact has strictly advanced |
| PipelineStore.PipelineProgress | internal/state/pipeline_store.go:56-124 | the counters are those of the tables |
| PipelineStore.CompleteTaskScan | internal/state/task_store.go:66-83 | commits exactly once, from SCANNING |
| PipelineStore.UpdateTaskStatus | internal/state/manifest_store.go:137-150 | changes the task's status only |
| Runners.CleanupPass | internal/app/cleanup.go:34-104 | every step is lawful; success means as many batches as allowed are cleaned or none is left, and the task root is not due |
| Runners.EnsureTaskRoot | internal/drive/tree.go:40-103 | a task folder persisted before is kept; otherwise the one folder of the name, made if there is none, is persisted under the name that stands already or the one derived from the task; success means the root is ready |
| Runners.DrivePass | internal/app/drive.go:101-113 | every step is lawful; success means no file is left to upload, and the task folder is persisted |
| Runners.DownloadPass | internal/app/download.go:34-96 | leaves no file waiting unless it fails; within the bound never paused |
| Pipeline.FilesFixed | internal/state/manifest_store.go:14-110 | once the scan is complete a lawful run keeps the set of files |
| Pipeline.PassAdvances | internal/app/pipeline.go:88-183 | a pass changed nothing the scheduler can see, or strictly advanced |
| Pipeline.DownloadPhase | internal/app/pipeline.go:135-150 | never paused by the watermark, and nothing is left between staging and download |
| Pipeline.Settle | internal/app/pipeline.go:77-95 | which outcome ends the run before a pass, exactly; and that it is true of the tables |
| Pipeline.StagePhase | internal/app/pipeline.go:149-158 | with work and room it goes on only with one more batch staged or none left |
| Pipeline.Judge | internal/app/pipeline.go:160-184 | which outcome ends the run after a pass, exactly; another pass only after a visible change, without failure and short of completion |
| Pipeline.Run | internal/app/pipeline.go:55-204 | at most 10N+4 passes over N files, whatever it reports is true of the tables (success only on a complete task), never stopped by the download watermark, every step lawful |
| ManifestStore.UpsertManifestPage | internal/state/manifest_store.go:14-110 | one transaction applies a page entry by entry, or nothing |
| ManifestStore.PageAdds | internal/state/manifest_store.go:14-110 | a page of a static share is always accepted and adds exactly what it lists |
| ManifestStore.RescanChangesNothing | internal/state/manifest_store.go:60-103 | interrupted scans of a static share followed by a complete one leave the manifest a single complete scan leaves |
| Scanner.ItemKeeps | internal/baidu/scanner.go:190-264 | one accepted entry keeps the two maps inverse and all paths explained by one prefix, for any service |
| Scans.ScanPage | internal/baidu/scanner.go:190-264 | the entry loop does what taking entries one after the other does |
| Scans.HonestItem | internal/baidu/scanner.go:190-264 | a truthfully listed entry passes every check and is reported under its place in the tree |
| ScanLogs.PageTold | internal/baidu/scanner.go:190-269 | for any service: a page that passes the checks is stored as it was listed, entry by entry, under the place of its directory |
| ScanLogs.AskedOnce | internal/baidu/scanner.go:154-181 | for any service: no page of any directory is asked for twice |
| Scans.PageInLine | internal/baidu/scanner.go:265-269 | every single page a scan has committed, finished or not, is in line with its maps and its one prefix |
| Scans.PageIsNew | internal/baidu/scanner.go:181-185 | pages of one honest directory never repeat a fingerprint |
| Scans.NextPage | internal/baidu/scanner.go:173-274 | one page asked for, checked and stored: on success the history holds exactly what was answered, otherwise nothing but the request; a truthful answer is refused by faults only |
| Scans.ScanDirectory | internal/baidu/scanner.go:163-275 | all pages of one directory, for any service: success means it was asked for page by page until a short one and its answers were stored entry by entry; listed truthfully, exactly its entries, within the page ceiling |
| Scans.Scan | internal/baidu/scanner.go:146-276 | any service: all that was committed follows one remote prefix and two inverse maps; success means that nothing but the root and what was listed was queued, that every directory queued was asked for exactly once and to its end, and that exactly what was answered is committed; a share listed truthfully: that is each directory of the tree, its flattening, and its manifest; without faults it succeeds |
| Scans.WalkComplete | internal/baidu/scanner.go:154-276 | a finished walk has visited every directory once and stored everything the share holds |
| Shares.WalkCovers | internal/baidu/scanner.go:154-276 | a walk that has visited all it found has visited the whole tree |
| Shares.FlatDirsDistinct | internal/baidu/scanner.go:226-244 | distinct visits find distinct directories |
| PageParse.OpenObjectStack | internal/baidu/pageparse.go:148-183 | the stack of the open objects before the marker |
| PageParse.BalancedObject | internal/baidu/pageparse.go:185-227 | returns the balanced object that starts there, and none only if there is none within the limit |
| PageParse.OpensAreUnmatched | internal/baidu/pageparse.go:148-183 | where no single quote or backtick opens a string before the marker, the stack holds exactly the unmatched opening braces outside strings |
| PageParse.ObjectEnclosesMarker | internal/baidu/pageparse.go:185-227 | any object returned from the stack encloses the marker |
| PageParse.SingleQuoteMisleads | internal/baidu/pageparse.go:171-173 | a brace in single quotes before the marker: the object found on the stack ends before it |
| PageSearch.ScanState.Enter | internal/baidu/pageparse.go:51-60 | a text is taken in once and within what is left |
| PageSearch.ScanState.TakeObject | internal/baidu/pageparse.go:77-86 | an object is cut out and charged to the budgets; what is left and what the course so far has spent add up to the limits |
| PageSearch.ExtractAtDepth | internal/baidu/pageparse.go:51-107 | for any page, any decoder and any order of walking maps: a context returned is that of an object around a marker or of a text embedded in one; none is returned only if every object cut out since held no metadata, and this text and every text taken in since was searched to the end |
| PageSearch.ExtractAround | internal/baidu/pageparse.go:71-103 | the same for one marker: every innermost object around it was cut out and led no further, or there was no room for it at its place |
| PageSearch.ExtractShareContext | internal/baidu/pageparse.go:26-42 | the metadata of the page, or a search in vain: a course of objects and texts within the limits, each object from around a marker of a text of the course, each text the page or embedded in an earlier object, every object without metadata, and every other object around a marker of these texts without room at its place |
| PageSearch.MetadataIsMissedForRoom | internal/baidu/pageparse.go:51-107 | an object around a marker of the page that decodes to metadata is missed for lack of room only |
| PageParse.MarkersApart | internal/baidu/pageparse.go:104-104 | going on behind a marker skips no other |

## Left out

- Download, upload and planning order: the first candidate of a query is any candidate, and the order of the discovered list is open; ORDER BY logical_path adds nothing to the properties.
- HTTP clients, cookies, Chrome login, rclone processes and OAuth: nondeterministic answers stand for them.
- Session re-login: kept as the two-attempt loops; which errors ask for a login is a nondeterministic choice.
- Error texts, last_error columns, timestamps, logging and backoff delays: no decision depends on them.
- Runtime path checks, symbolic links and Windows volumes: cache paths are opaque keys of a map.
- The Drive folder tree (internal/drive/tree.go): folders are not Drive objects of the model; which folder a listing finds, or whether one is made, is a nondeterministic answer.
- Retries inside one share listing request (internal/baidu/scanner.go:280-330): one answer per page stands for them.
- JSON decoding and the value search of pageparse.go: an arbitrary decoder, which may depend on the order in which maps are walked, stands for them.
- Cross-task cache sharing and MaxBatches above 1: the code does not keep the cache bound there.
- Schema migrations, command line modes, cleanup_integrity.go and release scripts: one-off code without protocol steps.
- OpenDownloadRange with a closed range is modelled, but the engine only asks for open ones.
- Stage.Run: stated for one batch a pass, because the cache bound fails for more.
- Runners.EnsureTaskRoot: names and IDs are taken as stored, without trimming white space.
- Runners.DrivePass: the folders below the task folder (internal/drive/tree.go:105-149) are one answer, made or failed.
- Restaging.StaysAwayIff: says nothing of a stageable batch behind another one that is admitted; such a batch was never touched (`Turns.AlwaysInOrder`), so its directory was never made.
- Turns.StartsUnlessWedged: stated for states in which nothing but staging is left to do; that downloads, uploads and cleanups always get there depends on the remotes.
- Safety.NothingElseDeleted: the textual checks of a path before its deletion (internal/baidu/staging_api.go:221-236) are not modelled, paths being opaque.
- Migration.Migrate: the sessions, extraction codes and the choice of a task around the two engines are left out.
