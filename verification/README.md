# Canvas: a verified model

A Dafny model of the parts of the Canvas service and its editor where several actors share state, or where
data crosses a boundary and has to arrive unchanged. Every module follows one component; methods stand for
the loops and updates of the program, functions for the statements they run, and lemmas say what holds over
every run, every input and every interleaving.

`dafny verify dfyconfig.toml` checks the project.

## What is modelled

**Job queue** (`JobTable`, `JobProtocol`, `JobInvariant`, `JobTheorems`, `JobLeases`, `JobRecords`). The table
`canvas_jobs` is a map from job to row; each SQL statement of the job service is a function on it, and `JobService`
runs those statements. `JobProtocol` lets any number of workers walk through `RunOnce`, one statement or one side
of the provider call at a time, while users create and cancel, finished jobs are imported, leases run out,
statements fail with or without their effect, and workers stop anywhere. A log records every entry into the
provider call. One invariant over the rows and all program counters carries all results. No guard of the program
prevents a second call; the invariant does. `JobLeases` has what a lease is worth, and `JobRecords` what the rows
record of a run.

**Export and import** (`SourceExport`, `Dataset`, `Validator`, `AcceptedExports`, `ImportRows`, `AcceptedRows`,
`Relational`, `JsonValues`, `RowOrder`, `TargetDataset`, `Import`, `ImportFailures`). The export resolves parents
and closes open jobs; the validator's loops accept exactly the predicate `Dataset.Accepted`. `Relational` has the
target tables with surrogate ids, the joins that insert nothing when a referent is missing, unique keys, column
limits, NULLs, JSONB values (`JsonValues`) and times in microseconds, and beside them the same statements on rows
as they are read back, which know public ids only. The first refine the second, statement by statement and over the
whole import, on any sound target. `RowOrder` is the order of the reading queries, and `TargetDataset` reads the
rows back into projects, assets and the rest, field by field; the comparison at the end is of lists in that order.
The results about empty and filled targets are proved on rows as they are read, and `ImportFailures` has concrete
exports for their conditions.

**Saving a project** (`SaveProtocol`, `ProjectRepository`). The client functions are cut at their awaits; the
server compares versions; requests and answers may be late or lost, other clients write, and the draft store
may fail. `ServeStep` is `Repository.Update` seen from one project: `SaveProtocol.Handle` runs the one on the
repository and ends where the other does.

**Event stream** (`EventStream`, `JobEvents`). The polling printer, any cut of the wire, and the streaming
parser. The format is that of section 9.2.6 of the WHATWG HTML standard, with the two deviations of the
parser (it trims event names, and all leading space of data).

**Editor revisions** (`EditorHistory`), **recovery of tasks after a reload** (`Recovery`,
`RecoveryTargets`, `RecoveryOrder`, `RecoverySession`), **search for the
config node to retry from** (`UpstreamSearch`), **storage key aliases** (`AliasResolution`), **chunked
transfer coding of the proxy** (`ChunkedCoding`, `ChunkTruncation`, section 7.1 of RFC 9112), **authentication cache**
(`AuthCache`), and **fitting the canvas into the viewport** (`Viewport`).

## What does not hold, and exactly when it does

- A worker that has lost its lease may still enter the provider call exactly when its `BeginUpstream` had
  already succeeded (`JobTheorems.LostLeaseMayCall`; `TheWindowIsReal` reaches such a state). The job is then
  on record as dispatched, ends as indeterminate, and is still called at most once. Before its lease is over no worker
  loses its job (`JobLeases.LeaseHolds`).
- A recorded cancel of a job that was not sent comes too late exactly when a worker stands between
  `BeginUpstream` and the call (`JobTheorems.CancelInTime`; `ACancelTooLate` is such a run).
- An accepted export is imported into an empty target exactly when all of this holds (`Import.ImportIntoEmpty`):
  its values fit their columns, which the validator does not check (wider texts, larger numbers, U+0000, also
  escaped within JSON, broken surrogate pairs there, and JSON numbers beyond what NUMERIC holds); every editor
  revision has parameters, since missing ones pass as `{}` (editor.go:425-428, validate.go:213) and are then sent as
  NULL to a NOT NULL column; no asset lists a parent twice; every legacy media task has an error value, since a
  missing one is stored as NULL and comes back as JSON null (target.go:299-304 against target.go:554-560); no number
  within JSON has an exponent or is a negative zero, which JSONB spells otherwise; every time is in the years 1 to
  9999 of UTC, without parts of a microsecond, since other years cannot be printed for the comparison; and every file
  lists its rows in the order of the target's collation, because the rows that were read are sorted and those of the
  export are not (target.go:361-405, target.go:596-757). So an export from a database with another collation can be
  refused. The claim is about the twelve tables modelled here, with a policy, audits and settings that match, and
  within the limits named under "Left out". `ImportFailures.OneDrawing`, `EscapedZero`, `WithExponent`, `TooLate`,
  `EitherOrder`, `MissingParameters` and `MissingError` are exports on both sides of it.
- The client says "saved" after an edit made while the draft was being removed, unless a retry was noted
  meanwhile (`SaveProtocol.RemovedIsSafe`). The edit itself is lost by exactly two steps: the removal of the draft
  when the edit was flushed before, and a flush after the wrong "saved" (`SaveProtocol.LosesAnEdit`;
  `AStrandedEdit` is a run).
- The stream of a finished job tells the final status exactly when its time stamp differs, in milliseconds,
  from the last one told (`JobEvents.FinalStatusIsTold`; not in `JobEvents.HiddenEnding`).
- One editor update can later leave a current asset that is not the newest revision's exactly when it has no
  operation and names a version the document has not reached (`EditorHistory.GivenIsNeeded`).
- After an invalidation the cache can still serve an older answer exactly when a request had one in hand
  (`AuthCache.InvalidationIsComplete`; `AnAnswerInHand` is a run).
- A fit leaves nodes outside exactly when the scaled content has no room between the paddings, and in a viewport
  without width or height, where nothing is scaled or centered, exactly when the content is not inside as it stands
  (`Viewport.FitExactly`; `NoWidth`); in a roomy viewport, with a minimum scale of at most one, when the scale had to
  be raised to its minimum (`Viewport.MissesWhenRaised`), as in `Viewport.TooWide`.
- Two keys joined by an alias resolve differently exactly when they are part of a circle
  (`AliasResolution.AliasesAgree`; `CircleOfTwo` has one).
- Which image becomes the primary one depends on the order of recovery (`Recovery.PrimaryIsFirst`;
  `PrimaryDependsOnOrder`).
- When tasks of several sources finish, the status of a source depends on the order exactly when all of its own tasks
  finish, it saw no success before, none of its own tasks stores anything that it sees, and a task of another source
  does (`RecoveryOrder.StatusInEveryOrder`; `Recovery.SharedTargetsDepend` is such a case). What is no source never
  depends on it (`RecoveryOrder.OthersInAnyOrder`), and nothing does as long as no source looks at nodes that tasks
  of another one change (`Recovery.FinishedInAnyOrder`).

## Model

| member | source | states |
|---|---|---|
| `JobTable.JobService.Create` | backend/internal/job/job.go:206-259 | creates a job only when the owner has none with the key; a repeat with the same request is answered with that job, with another request it conflicts, and neither changes anything |
| `JobTable.JobService.Cancel` | backend/internal/job/job.go:269-283 | a queued job becomes canceled at once, a running one keeps running with the request recorded, a finished one or one of another owner is untouched |
| `JobTable.JobService.CleanUp` | backend/internal/job/job.go:493-522 | the three clean-up statements, one after the other over the whole table, send every expired lease one way: dispatched to indeterminate, canceled to canceled, the rest back to the queue |
| `JobTable.JobService.OldestClaimable` | backend/internal/job/job.go:524-540 | the claimable row first in creation order and id, or none when there is none |
| `JobTable.JobService.Claim` | backend/internal/job/job.go:484-558 | after the clean-up the oldest claimable job, and no other row, is leased to the worker; nothing is claimed only when nothing is claimable; a lease below ten seconds is refused |
| `JobTable.JobService.BeginUpstream` | backend/internal/job/job.go:560-573 | marks the job as dispatched only for the owner of a running job without a cancel; otherwise nothing changes and the error does not tell a lost lease from a cancel |
| `JobTable.JobService.MarkSaving` | backend/internal/job/job.go:575-588 | records the official request and renews the lease for the holder only |
| `JobTable.UpsertsMakeResults` | backend/internal/job/job.go:597-606 | the upserts of a completion, one position after the other, leave exactly the assets at positions 0 to n-1 and every other result as it was |
| `JobTable.JobService.Complete` | backend/internal/job/job.go:590-622 | results and completion are written together for the holder, and neither for anybody else |
| `JobTable.JobService.Fail` | backend/internal/job/job.go:624-647 | the holder ends the job as failed, indeterminate or canceled, any other status asked for becomes failed, and nobody else changes anything |
| `JobProtocol.ParseOutputs` | backend/internal/job/job.go:872-896 | returns the payloads in order exactly for a body of 1 to max inline, bounded items, and nothing otherwise |
| `JobInvariant.StepKeeps` | backend/internal/job/job.go:484-772 | every statement, provider step, stop, cancel, create and import keeps the invariant over rows, results, calls and all workers' places |
| `JobTheorems.AtMostOneCall` | backend/internal/job/job.go:683-752 | over every run of any number of workers the provider is entered at most once per job, although BeginUpstream tests neither the lease nor an earlier dispatch |
| `JobTheorems.StatusTellsCalls` | backend/internal/job/job.go:560-647 | a completed job was called exactly once, a canceled one never and only on request, a queued one not yet |
| `JobTheorems.LostLeaseMayCall` | backend/internal/job/job.go:560-573 | a worker without its lease may still enter the call if and only if its BeginUpstream had succeeded |
| `JobTheorems.TheWindowIsReal` | backend/internal/job/job.go:493-499 | a run that takes the lease from a worker between BeginUpstream and its call |
| `JobTheorems.CallsAreOnRecord` | backend/internal/job/job.go:560-573 | in every run, whoever enters the call does so for a job that is marked dispatched and was not called before, which it holds or which is indeterminate for good |
| `JobTheorems.CancelInTime` | backend/internal/job/job.go:269-283 | a job with a cancel on record that was not sent can still be sent if and only if a worker has its BeginUpstream behind it |
| `JobTheorems.ACancelTooLate` | backend/internal/job/job.go:269-283 | a run in which a cancel is recorded and the job is sent all the same |
| `JobLeases.LeaseHolds` | backend/internal/job/job.go:524-588 | a worker that claims, begins or marks at a time with a lease keeps the job running and its own, whatever users and other workers do and claim until the lease is over; a claim takes it away if and only if it comes later than that |
| `JobLeases.LeaseEnds` | backend/internal/job/job.go:493-530 | the claim after that makes a sent job indeterminate, a canceled one canceled, and any other one its own or queued, with the codes and times of the source |
| `JobRecords.CreateAdds` | backend/internal/job/job.go:206-259 | a create leaves one waiting job with the owner, key, request, count and time asked for, or nothing when the owner has the key, and changes no other job |
| `JobRecords.CancelNotes` | backend/internal/job/job.go:269-283 | a cancel ends a queued job of the owner, is noted on a running one, and changes nothing else |
| `JobRecords.OnlyTheOwnerCancels` | backend/internal/job/job.go:269-283 | over every run a job with a cancel on record was canceled by its owner |
| `JobRecords.ClaimedInOrder` | backend/internal/job/job.go:524-540 | of two jobs created one after the other the second is claimed only when the first does not wait any more, whatever happened between |
| `JobRecords.ChangesAreStamped` | backend/internal/job/job.go:484-647 | over every run a job that is not as it was bears the time of one of the statements since, which is what the event stream compares |
| `JobTheorems.FinishedForEver` | backend/internal/job/job.go:575-647 | no later step of any worker, user or import changes a finished job or its results |
| `JobTheorems.ResultsAreAtomic` | backend/internal/job/job.go:590-622 | a job of ours has results only when completed, at exactly the positions below a count between 1 and the number requested |
| `JobTheorems.NothingIsStranded` | backend/internal/job/job.go:493-522 | a queued job is unleased, undispatched and claimable, a running one has an owner and an expiry, a finished one neither |
| `JobTheorems.ClaimClears` | backend/internal/job/job.go:493-558 | in every run, after a claim no running lease is older than its time, and the job claimed comes before every job still queued |
| `JobTheorems.StepDescends` | backend/internal/job/job.go:484-647 | the rank of a job drops whenever it moves, except when an undispatched expired lease is requeued |
| `JobTheorems.JobsEnd` | backend/internal/job/job.go:484-647 | over a run of any length a job moves at most four times, plus once for each requeue |
| `JobTheorems.UndisturbedCompletes` | backend/internal/job/job.go:683-752 | a worker that nobody disturbs sends the job once and completes it with the stored assets in their order, the official request and the time |
| `JobTheorems.CancelEndsCanceled` | backend/internal/job/job.go:701-707 | a cancel before the dispatch ends the job as canceled, without a call |
| `JobTheorems.RefusalEndsJob` | backend/internal/job/job.go:713-723 | a refused call ends the job as indeterminate when the outcome is unknown or unreadable, else as failed, with the code of its kind, and says whether to retry |
| `JobTheorems.UnstoredEndsJob` | backend/internal/job/job.go:727-751 | a result that cannot be read or stored ends the job as indeterminate, under two different codes |
| `JobTheorems.UnsentEndsFailed` | backend/internal/job/job.go:688-707 | a job that cannot be prepared, and one whose BeginUpstream is lost, end as failed without a call |
| `JobTheorems.OneJobPerKey` | backend/internal/job/job.go:213-235 | in every run an owner and a key hash have at most one job |
| `JobTheorems.RepeatedCreate` | backend/internal/job/job.go:213-240 | whatever happens between two creates with one key, the second changes nothing and is answered with the job of the key if its request is the stored one, else with a conflict |
| `SourceExport.SortedUnique` | backend/internal/transfer/validate.go:575-584 | fails if and only if a value occurs twice, from comparing neighbours; else the same values, sorted |
| `SourceExport.ResolveAssetParents` | backend/internal/transfer/source.go:340-381 | succeeds if and only if every list names known assets, none twice, not even once by number and once by public id; then every asset has its parents sorted and distinct, and nothing else changed |
| `SourceExport.ReadSourceJobs` | backend/internal/transfer/source.go:620-700 | every job is exported closed, and the unresolved items are exactly the queued, running and indeterminate jobs, one for each |
| `SourceExport.ClosedExactly` | backend/internal/transfer/source.go:680-694 | closing makes a queued, running or indeterminate job indeterminate, finished at the snapshot if it was not before, keeps every other status, maps the phases, and changes nothing else |
| `SourceExport.ParentMeans` | backend/internal/transfer/source.go:340-381 | a parent is found by the number or by the public id of an asset, and by nothing else |
| `Validator.ValidateRows` | backend/internal/transfer/validate.go:44-56 | the loop that all tables share accepts a list if and only if every row is valid and nothing is claimed twice |
| `Validator.ValidateDataset` | backend/internal/transfer/validate.go:44-403 | the loops accept exactly the exports that Dataset.Accepted describes |
| `Validator.ValidateResolutions` | backend/internal/transfer/validate.go:412-442 | accepts if and only if all items have a known kind, id, status and phase, all decisions the one action and a reason, and decisions and unresolved items match one to one, from a comparison of two sizes |
| `Validator.CountObjects` | backend/internal/transfer/validate.go:368-391 | counts the objects of a kind for every asset |
| `Validator.ManifestIsBijection` | backend/internal/transfer/validate.go:368-403 | from counts per asset and equal keys only: valid objects are accepted if and only if their target keys are exactly the keys the assets name, each once |
| `AcceptedExports.ObjectsDepictAssets` | backend/internal/transfer/validate.go:368-403 | every asset of an accepted export has its original, with its size, digest and type, and the thumbnail it names among the objects, each once, and there is no other object |
| `AcceptedExports.ReferencesStayWithTheOwner` | backend/internal/transfer/validate.go:58-365 | no reference of an accepted export leads to what belongs to somebody else, in any table; library assets have the kind of their item, editor assets are images, and job inputs have the digest of their asset |
| `AcceptedExports.AcceptedPassesChecks` | backend/internal/migrate/sql/001_core.sql:55-222 | every row of an accepted export passes every CHECK of its table in the target |
| `AcceptedRows.AcceptedRefs` | backend/internal/transfer/validate.go:88-125 | no reference of an accepted export is to a row it does not have |
| `AcceptedRows.InputsStayWithTheOwner` | backend/internal/transfer/validate.go:281-321 | what a job was given belongs to the owner of its project |
| `AcceptedRows.EditorAssetsStayWithTheOwner` | backend/internal/transfer/validate.go:190-225 | what an asset reference or a revision names belongs to the owner of the base asset of its document |
| `AcceptedRows.AcceptedKeys` | backend/internal/transfer/validate.go:114-126 | no two rows of an accepted export have the same primary key in the target |
| `AcceptedRows.AcceptedSeconds` | backend/internal/transfer/validate.go:153-189 | nor the same value in another unique index: object keys, client ids, active project nodes, revision versions, idempotency hashes |
| `AcceptedRows.AcceptedParents` | backend/internal/transfer/validate.go:105-112 | the parent rows have distinct keys if and only if no asset lists a parent twice, which the validator does not check |
| `AcceptedRows.AcceptedFit` | backend/internal/migrate/sql/001_core.sql:55-235 | the columns of a table hold everything sent if and only if the listed widths and ranges are kept, no text has U+0000, JSON values have storable escapes and numbers, and every revision has parameters, none of which the validator checks |
| `AcceptedRows.EverythingReadsBack` | backend/internal/transfer/target.go:361-405 | every row comes back as it was and can be printed for the comparison if and only if media tasks have errors, numbers within JSON are plain and times are whole microseconds of the years 1 to 9999 |
| `JsonValues.JsonStays` | backend/internal/transfer/target.go:759-774 | a JSONB column gives a value back as it was if and only if no number in it has an exponent or is a negative zero |
| `JsonValues.RespelledIsEqual` | backend/internal/transfer/target.go:759-774 | otherwise it spells the same number |
| `RowOrder.OrderedAscends` | backend/internal/transfer/target.go:419-567 | ORDER BY lists the rows of a table by their keys, and neither loses nor adds one |
| `RowOrder.ListedAs` | backend/internal/transfer/target.go:361-405 | rows with the keys of an export are listed as the export if and only if they are its rows and the export is in the order of the keys |
| `TargetDataset.ReadsAsExport` | backend/internal/transfer/target.go:419-567 | a target whose lists are the rows of an export reads, field by field and with parents grouped by asset, as that export |
| `Relational.Lookup` | backend/internal/transfer/target.go:147-147 | the row with a public id, or none when no row has it |
| `Relational.MissingReferentIsSilent` | backend/internal/transfer/target.go:154-163 | a join without a required referent stores nothing and reports nothing |
| `Relational.InsertRefines` | backend/internal/transfer/target.go:141-153 | for an item whose referents can be read, INSERT ... SELECT ... ON CONFLICT DO NOTHING does to the table what a merge by public key does to its rows as read, down to the error, and nothing to any other table |
| `Relational.ThumbnailRefines` | backend/internal/transfer/target.go:164-171 | the UPDATE by subselect sets the thumbnail of that project as read and changes nothing else |
| `Relational.TakenSecondFails` | backend/internal/migrate/sql/001_core.sql:131-163 | a row whose key is new and whose other unique value is taken is an error |
| `Import.StagesRefine` | backend/internal/transfer/target.go:132-297 | for a consistent export the whole sequence of loops, on any sound target, ends in an error exactly when a merge does, and otherwise leaves the merged rows |
| `Import.TargetDatabase.InsertTargetRows` | backend/internal/transfer/target.go:132-297 | runs the loops in their order and stops at the first error |
| `Import.TargetDatabase.VerifyTarget` | backend/internal/transfer/target.go:361-405 | true if and only if every table, listed in the order of its key, is the list of the export, with parents sorted on both sides; then the dataset read from the target is the exported one in every field |
| `Import.TargetDatabase.Import` | backend/internal/transfer/target.go:17-55 | commits if and only if the export is accepted, the statements succeed and the target, listed in the order of its collation, reads as the export; then the dataset read from it is the exported one in every field; otherwise the target is as before |
| `Import.ImportIntoEmpty` | backend/internal/transfer/target.go:132-297 | an accepted export is imported into an empty target if and only if its values fit, revisions have parameters, parents are distinct, media tasks have errors, numbers are plain, times are whole microseconds of the years 1 to 9999, and the rows are in key order |
| `Import.CommittedContent` | backend/internal/transfer/target.go:361-567 | whenever an import commits, whatever the target had before, the dataset read from it equals the export in every field of all twelve tables, parents in any order |
| `Import.ImportLosesNothing` | backend/internal/transfer/target.go:361-567 | so does an import into an empty target, and every table reads back as the rows of the export, in their order, despite the cycle between projects and assets |
| `Import.ImportAgain` | backend/internal/transfer/target.go:132-297 | a target that already reads as the export is imported into again, and reads as before |
| `ImportFailures.OneDrawing` | backend/internal/transfer/target.go:132-140 | an export of one project, whatever its document and its non-zero time (the looks inside the document are left out), is imported if and only if the column holds the document, its numbers are plain and the time is a whole microsecond of the years 1 to 9999 |
| `ImportFailures.EscapedZero` | backend/internal/migrate/sql/001_core.sql:58-58 | a document with a note that has an escaped U+0000 is accepted and not imported |
| `ImportFailures.WithExponent` | backend/internal/transfer/target.go:759-774 | a document with a number that has an exponent is accepted and not imported |
| `ImportFailures.TooLate` | backend/internal/transfer/target.go:361-405 | a time in the year 10000 of UTC is accepted and not imported, a microsecond earlier it is |
| `ImportFailures.EitherOrder` | backend/internal/transfer/target.go:361-405 | two projects are accepted in both orders and imported in exactly one |
| `ImportFailures.MissingError` | backend/internal/transfer/target.go:281-304 | a media task without an error is accepted and not imported, with one it is |
| `ImportFailures.MissingParameters` | backend/internal/transfer/validate.go:213-215 | an editor revision without parameters is accepted and not imported, with some it is |
| `ProjectRepository.Repository.Update` | backend/internal/project/project.go:124-159 | name, document, version and references change together when the version matches, the name fits, every asset is owned and no reference is repeated, otherwise nothing does; a refused version is told from a missing project |
| `ProjectRepository.UpdatesExactly` | backend/internal/project/project.go:124-159 | an update is made if and only if the project is the owner's, not deleted and at the version, the trimmed name has 1 to 160 characters, and the references are to own assets, none twice; what becomes of that project and that no other one changes |
| `ProjectRepository.NoRefusal` | backend/internal/project/project.go:297-319 | the references can all be inserted if and only if every asset is owned and none is repeated |
| `ProjectRepository.Repository.ReplaceReferences` | backend/internal/project/project.go:297-319 | the loop ends at the first reference that cannot be inserted, or has replaced them all |
| `SaveProtocol.UndisturbedSaves` | frontend/src/adapters/use-canvas-store.ts:215-288 | when nobody interferes, a timer, a flush of a document that is not saved, and a retry each bring the last edit to the server as the next version, and the client says saved |
| `SaveProtocol.RetryStarts` | frontend/src/adapters/use-canvas-store.ts:476-491 | outside a conflict a retry leaves a save in flight, no timer and no block, with another save noted if one was in flight; in a conflict it does nothing |
| `SaveProtocol.FlushStarts` | frontend/src/adapters/use-canvas-store.ts:462-475 | a flush leaves no timer, and a save in flight if and only if one was or there is something to save and no conflict |
| `SaveProtocol.EditStarts` | frontend/src/adapters/use-canvas-store.ts:450-461 | an edit starts a timer, and in a conflict stops it |
| `SaveProtocol.ConflictStays` | frontend/src/adapters/use-canvas-store.ts:233-284 | over every run from a conflict on the client shows it and sends nothing |
| `SaveProtocol.RefusedForGood` | frontend/src/adapters/use-canvas-store.ts:267-284 | a request on top of a version that others have passed changes nothing on the server, and its answer ends the sending for good |
| `SaveProtocol.ProjectSync.UpdateProject` | frontend/src/adapters/use-canvas-store.ts:450-461 | an edit takes the next sequence number and schedules a save |
| `SaveProtocol.ProjectSync.OnCreated` | frontend/src/adapters/use-canvas-store.ts:246-249 | sends the current document at the known version under the current sequence number |
| `SaveProtocol.ProjectSync.OnDraftRemoved` | frontend/src/adapters/use-canvas-store.ts:261-262 | says saved without looking at the sequence again, and ends |
| `SaveProtocol.ProjectSync.OnError` | frontend/src/adapters/use-canvas-store.ts:267-276 | a conflict blocks and is shown, any other error is shown, and the save ends |
| `SaveProtocol.ProjectSync.ScheduleSave` | frontend/src/adapters/use-canvas-store.ts:215-231 | a new timer and the status dirty, unless blocked |
| `SaveProtocol.ProjectSync.PersistProject` | frontend/src/adapters/use-canvas-store.ts:233-242 | starts one save, or notes a retry while one is in flight, or does nothing when blocked |
| `SaveProtocol.ProjectSync.OnAnswer` | frontend/src/adapters/use-canvas-store.ts:251-266 | adopts the version; goes on to remove the draft if nothing was edited, else notes a retry and ends |
| `SaveProtocol.ProjectSync.Finally` | frontend/src/adapters/use-canvas-store.ts:277-284 | ends the save and starts the retry that was noted, unless blocked |
| `SaveProtocol.ProjectSync.FlushProject` | frontend/src/adapters/use-canvas-store.ts:462-475 | stops the timer and saves at once unless a save is in flight or the status is saved |
| `SaveProtocol.ProjectSync.RetryProject` | frontend/src/adapters/use-canvas-store.ts:476-491 | unblocks and saves unless there is a conflict |
| `SaveProtocol.StepKeeps` | frontend/src/adapters/use-canvas-store.ts:215-288 | every piece of the client, every server and network step and every other client keeps the invariant |
| `SaveProtocol.OneSaveInFlight` | frontend/src/adapters/use-canvas-store.ts:233-288 | in every run at most one save is in flight, the believed version exists and holds the document last acknowledged, and a conflict is shown and blocks |
| `SaveProtocol.RemovedIsSafe` | frontend/src/adapters/use-canvas-store.ts:260-262 | saying saved after the draft removal is right if and only if nothing was edited meanwhile or a retry is noted |
| `SaveProtocol.UndisturbedRunIsSafe` | frontend/src/adapters/use-canvas-store.ts:215-288 | over every run in which that holds, an unsaved edit has a timer, a save in flight or a visible error, and saved means that the server's document at the version is the local one |
| `SaveProtocol.LosesAnEdit` | frontend/src/adapters/use-canvas-store.ts:215-288 | a step leaves an edit without timer, save or visible error if and only if it is the removal of a draft after an edit that was flushed, or a flush after a wrong saved |
| `SaveProtocol.NoEditIsLost` | frontend/src/adapters/use-canvas-store.ts:215-288 | over every run without such a step every unsaved edit keeps a timer, a save in flight or a visible error |
| `SaveProtocol.Handle` | backend/internal/project/project.go:124-159 | what the repository does with the request of a client is what the steps Serve, Break and OtherClient do to the history |
| `SaveProtocol.AStrandedEdit` | frontend/src/adapters/use-canvas-store.ts:260-262 | a run outside that condition after which an edit is shown as saved and nothing will save it |
| `EventStream.NormalizeAppend` | frontend/src/api/canvas-api.ts:515-516 | line ends of two pieces may be normalized apart unless the cut falls between CR and LF |
| `EventStream.BlocksAppend` | frontend/src/api/canvas-api.ts:517-530 | the blocks of a text are those of its beginning followed by those of the rest kept plus what comes after |
| `EventStream.ParseBlock` | frontend/src/api/canvas-api.ts:521-528 | one block gives one event with its last name and its joined data, or none without data |
| `EventStream.ParseCanvasSSE` | frontend/src/api/canvas-api.ts:504-536 | for every cut of the stream, also between CR and LF, the events are those of the stream in one piece |
| `JobEvents.StreamJobEvents` | backend/internal/api/api.go:781-850 | prints the first snapshot and then one event per poll with a new time stamp, keepalives between them, until a terminal status or a failed poll |
| `JobEvents.PollTells` | backend/internal/api/api.go:834-850 | after any time of polling a queued or running job is told as progress, if its time stamp is new, and the stream goes on; one of the six final statuses is told by its name, if new, and nothing follows whatever comes |
| `JobEvents.FirstLookTells` | backend/internal/api/api.go:798-820 | the same for the first look, which is always told |
| `JobEvents.FailedPollEnds` | backend/internal/api/api.go:836-840 | a poll that fails ends the stream without a word |
| `JobEvents.TextComesBack` | frontend/src/api/canvas-api.ts:521-528 | any text sent line by line as data comes back with its line ends, if no line begins with a space, under the default name |
| `JobEvents.RoundTrip` | backend/internal/api/api.go:798-833 | any sequence of trimmed one-line events with keepalives anywhere, printed, cut in any way and parsed in pieces, comes back exactly and in order |
| `JobEvents.WatchedExactly` | backend/internal/api/api.go:781-850 | from the polling loop over any cut of the wire the client gets exactly the changes that the loop saw |
| `JobEvents.FinalStatusIsTold` | backend/internal/api/api.go:834-850 | when the job ends the stream, its final status was told if and only if its time stamp differs from the last one told |
| `JobEvents.HiddenEnding` | backend/internal/api/api.go:834-850 | two changes in one millisecond, with any number of keepalives between the polls: the stream ends with the job completed and the client was not told |
| `EditorHistory.EditorDocuments.Commit` | backend/internal/editor/editor.go:257-282 | asset, version and revision change together when the version matches, else nothing does |
| `EditorHistory.UpdateTakesEffect` | backend/internal/editor/editor.go:225-285 | over any run between its statements an update takes effect if and only if the version is the one it was sent; then the document has its asset, or the one current when it began, the next version, and the revision with its operation |
| `EditorHistory.AlwaysOrdered` | backend/internal/editor/editor.go:225-285 | in every run revisions are only appended, their versions increase and stay within the document's |
| `EditorHistory.CurrentIsNewest` | backend/internal/editor/editor.go:225-285 | over every interleaving of updates that carry given versions the current asset is the newest revision's |
| `EditorHistory.HistoryOfADocument` | backend/internal/editor/editor.go:119-141 | for a document from its creation: the current asset is the newest revision's, or the base asset without one |
| `EditorHistory.GivenIsNeeded` | backend/internal/editor/editor.go:225-285 | an update can lead to a wrong current asset if and only if it has no operation and names a version the document has not reached |
| `Recovery.SortsStably` | frontend/src/jobs/canvas-task-recovery.ts:38-41 | sorting by creation time keeps every task and the order of equal times |
| `Recovery.FirstFree` | frontend/src/jobs/canvas-task-recovery.ts:151-158 | the first target of the first candidate that has one, or none when no candidate has one |
| `Recovery.TookTheFirst` | frontend/src/jobs/canvas-task-recovery.ts:44-57 | a task is left out if and only if it has no source or no candidate has anything free; otherwise one binding is added, to the first target of the first candidate that has one |
| `Recovery.BuildCanvasRecoveryBindings` | frontend/src/jobs/canvas-task-recovery.ts:29-60 | binds the sorted tasks one by one, each as `RecoveryTargets.TasksInTurn` says, seeing the slots claimed before it |
| `RecoveryTargets.TasksInTurn` | frontend/src/jobs/canvas-task-recovery.ts:43-159 | each task is bound to the foremost free target of the node it was started from, if that one is loading, of the kind and has one; else to that of the node of the first connection from there that leads to such a node; and it is left out if and only if there is none |
| `RecoveryTargets.ClaimedMeans` | frontend/src/jobs/canvas-task-recovery.ts:35-37 | a slot is claimed if and only if a record names its node and its image |
| `Recovery.NoSlotTwice` | frontend/src/jobs/canvas-task-recovery.ts:29-60 | the image slots of all bindings and of the records before them differ |
| `RecoverySession.NeverBoundTwice` | frontend/src/adapters/use-canvas-store.ts:548-589 | whatever is saved, loaded with its records, started, finished, dropped and edited, no two records have the same image slot |
| `RecoverySession.OneRecordPerTask` | frontend/src/adapters/use-canvas-store.ts:548-589 | over every such session a task has at most one record, if the server lists none twice |
| `RecoverySession.LoadKeepsRecords` | frontend/src/adapters/use-canvas-store.ts:550-573 | a readable record among the first 100, the first of its task, whose target is still there, stays bound as it is, and its task is not bound anew |
| `RecoverySession.LoadKeepsOpen` | frontend/src/adapters/use-canvas-store.ts:573-586 | the records after a load are those bound whose tasks have none of the six final statuses |
| `RecoverySession.LoadCatchesUp` | frontend/src/adapters/use-canvas-store.ts:573-586 | of the tasks that are over every one has left its outcome in its slot, whatever their order, and all other slots are as they were saved |
| `RecoverySession.RegisterBinds` | frontend/src/adapters/use-canvas-store.ts:660-690 | a task that was started gets one record, for the target that it is bound to, unless it has one or finds none |
| `RecoverySession.FinishForgets` | frontend/src/adapters/use-canvas-store.ts:745-769 | a task that ended has no record any more, those of others stay, and its source is settled by what is left |
| `Recovery.AppliedTwice` | frontend/src/jobs/canvas-task-recovery.ts:66-98 | applying a snapshot twice is applying it once, in every field |
| `RecoveryTargets.SnapshotStores` | frontend/src/jobs/canvas-task-recovery.ts:66-216 | in the bound node the bound images, or the node itself without a slot, take the first asset of a completed or partial task, and otherwise its message or a default; status, error and front image of the node follow; all else stays |
| `RecoveryTargets.SourceSettles` | frontend/src/jobs/canvas-task-recovery.ts:100-125 | a waiting source without open tasks becomes a success if and only if it leads to one, else an error with the text of the first node it leads to that has one, or the default text; other nodes stay |
| `Recovery.AllSettled` | frontend/src/jobs/canvas-task-recovery.ts:161-216 | after snapshots for distinct slots every image has the outcome of its slot or is unchanged, and a node that was touched has the status its images make up |
| `Recovery.AnyOrder` | frontend/src/jobs/canvas-task-recovery.ts:66-98 | they give the same images and node status in any order |
| `Recovery.PrimaryIsFirst` | frontend/src/jobs/canvas-task-recovery.ts:196-213 | the primary image is that of the first update that stores something, if the node had nothing stored |
| `Recovery.PrimaryDependsOnOrder` | frontend/src/jobs/canvas-task-recovery.ts:196-213 | two updates applied in the two orders give different primary images |
| `Recovery.SettledAtTheEnd` | frontend/src/adapters/use-canvas-store.ts:745-769 | such tasks, finished one by one, settle their sources as if all were applied first and everything settled then |
| `Recovery.FinishedInAnyOrder` | frontend/src/adapters/use-canvas-store.ts:745-769 | tasks of sources that do not look at each other's nodes, finished in any order, leave the same images and statuses, those of the sources included |
| `Recovery.SharedTargetsDepend` | frontend/src/jobs/canvas-task-recovery.ts:100-125 | two sources that share a node: one of them ends as failed or as successful, by the order of the tasks |
| `RecoveryOrder.GoodAfter` | frontend/src/jobs/canvas-task-recovery.ts:161-216 | after the tasks a node has a success if and only if it had one or one of them stored something in it |
| `RecoveryOrder.OthersInAnyOrder` | frontend/src/adapters/use-canvas-store.ts:745-769 | a node that is no source ends with the same images and status in every order of the tasks, whatever the sources look at |
| `RecoveryOrder.StatusInEveryOrder` | frontend/src/jobs/canvas-task-recovery.ts:100-125 | the status of a waiting source is the same in every order if and only if a task of it stays open, it saw a success before, one of its own tasks stores something that it sees, or no task does |
| `UpstreamSearch.FindRetrySourceNode` | frontend/src/adapters/canvas-generation-helpers.ts:172-184 | ends on every graph; null if and only if no config node is upstream, otherwise one at the fewest connections |
| `UpstreamSearch.NothingIsMissed` | frontend/src/adapters/canvas-generation-helpers.ts:175-182 | whatever is upstream within a distance is visited, or the queue still has an entry no farther away |
| `AliasResolution.AliasTable.ResolveStorageKeyAlias` | frontend/src/adapters/asset-runtime.ts:12-20 | ends on every map at the first key of the chain that has no alias or is on a circle |
| `AliasResolution.ResolvesToOne` | frontend/src/adapters/asset-runtime.ts:12-20 | there is only one such key |
| `AliasResolution.Idempotent` | frontend/src/adapters/asset-runtime.ts:12-20 | resolving what was resolved changes nothing, circles included |
| `AliasResolution.AliasesAgree` | frontend/src/adapters/asset-runtime.ts:12-24 | a key and its alias resolve alike if and only if the key is not part of a circle of several |
| `AliasResolution.CircleOfTwo` | frontend/src/adapters/asset-runtime.ts:12-24 | two registrations after which a key and its alias resolve differently |
| `AliasResolution.AliasTable.RegisterStorageKeyAlias` | frontend/src/adapters/asset-runtime.ts:22-24 | sets an alias between two different non-empty keys and otherwise nothing |
| `ChunkedCoding.PrintThenParse` | deploy/proxy/sub2api_path_proxy.py:472-472 | reading a printed size gives the size, also with its line end |
| `ChunkedCoding.HexIsShort` | deploy/proxy/sub2api_path_proxy.py:472-472 | a size takes at most so many digits if and only if it is below that power of sixteen |
| `ChunkedCoding.ParseThenPrint` | deploy/proxy/sub2api_path_proxy.py:532-532 | printing what was read from canonical text gives the text |
| `ChunkedCoding.WriteChunks` | deploy/proxy/sub2api_path_proxy.py:470-480 | the writing loop emits the chunks with their sizes and the closing chunk |
| `ChunkedCoding.ReadChunkedBody` | deploy/proxy/sub2api_path_proxy.py:523-549 | the reading loop computes Decode: body and rest, or the status of the refusal |
| `ChunkedCoding.ConsumeChunkedTrailers` | deploy/proxy/sub2api_path_proxy.py:551-557 | reads lines to the first empty one, and refuses one that is too long |
| `ChunkedCoding.ReadsWhatWasWritten` | deploy/proxy/sub2api_path_proxy.py:470-557 | what was written, in chunks whose size line is no longer than the reader reads, is read as the chunks joined, leaving exactly what followed, if and only if it fits the limit; else it is refused as too large |
| `ChunkedCoding.RoundTrip` | deploy/proxy/sub2api_path_proxy.py:470-557 | within the limit the coding is undone, whatever follows |
| `ChunkedCoding.NeverTooLong` | deploy/proxy/sub2api_path_proxy.py:523-549 | no input at all makes a body above the limit, and what is left is an end of the input |
| `ChunkTruncation.CutIsNoticed` | deploy/proxy/sub2api_path_proxy.py:470-557 | what was written, cut short anywhere, is never read as a shorter body: it is refused as malformed, unless only something after the closing zero is missing |
| `ChunkTruncation.Refusals` | deploy/proxy/sub2api_path_proxy.py:523-549 | a first line above 65536 bytes or without a size, and data without its line end, are malformed; a negative size and one beyond the limit are too large; any other chunk is taken |
| `ChunkTruncation.OtherSpellings` | deploy/proxy/sub2api_path_proxy.py:532-532 | a size may have a sign, the prefix 0x and blanks around it, as in Python |
| `AuthCache.Authenticator.EvictExpiredOrOldest` | backend/internal/authn/authn.go:108-127 | below the limit nothing; else one entry goes, an expired one or, when none is expired, one that expires first |
| `AuthCache.Authenticator.Serve` | backend/internal/authn/authn.go:69-80 | a live entry is served and kept, a dead one is removed |
| `AuthCache.Authenticator.Store` | backend/internal/authn/authn.go:88-93 | makes room, then keeps the answer until the time to live has passed; the cache stays within its limit |
| `AuthCache.Authenticator.Invalidate` | backend/internal/authn/authn.go:97-106 | removes exactly the entries of the token |
| `AuthCache.StepKeepsSound` | backend/internal/authn/authn.go:63-127 | every lock section and profile answer keeps: each entry is an answer for its token and session, stored a time to live before it expires |
| `AuthCache.TakeStep` | backend/internal/authn/authn.go:63-106 | running the lock section of a step leaves the cache that the step has |
| `AuthCache.TakeKeep` | backend/internal/authn/authn.go:87-93 | so does keeping an answer, whichever entry the eviction removes |
| `AuthCache.ServedWasGiven` | backend/internal/authn/authn.go:63-95 | over every interleaving the cache stays within its limit and serves only answers of the profile service for the same token and session, stored less than the time to live ago |
| `AuthCache.KeptIsServed` | backend/internal/authn/authn.go:63-95 | an answer that was kept is served until its time to live is over, whatever happens to other keys, and asked for again after it |
| `AuthCache.RefusedIsForgotten` | backend/internal/authn/authn.go:81-87 | after a refusal nothing is served for the token and session until a new answer is kept, and other entries stay |
| `AuthCache.InvalidationIsComplete` | backend/internal/authn/authn.go:97-106 | after an invalidation an older answer can be served if and only if a request had one in hand |
| `AuthCache.AnAnswerInHand` | backend/internal/authn/authn.go:97-106 | a run from the start after which an invalidated answer can be served |
| `Viewport.CanvasNodeBounds` | frontend/src/lib/canvas-viewport.ts:48-65 | the least area around all finite nodes, or none when there is no finite node |
| `Viewport.FitCanvasNodes` | frontend/src/lib/canvas-viewport.ts:19-42 | the transform computed from those bounds, and the centered default without nodes or area |
| `Viewport.FitIsAFit` | frontend/src/lib/canvas-viewport.ts:26-41 | in a roomy viewport, with an unclamped scale of at least the minimum, every node's area ends up inside the padded viewport |
| `Viewport.FitExactly` | frontend/src/lib/canvas-viewport.ts:26-41 | for all options and viewports every node is inside if and only if the scaled content has room between the paddings in both dimensions; in a viewport without a side, if and only if the content is inside unscaled and uncentered |
| `Viewport.FitIsLargest` | frontend/src/lib/canvas-viewport.ts:26-41 | content is centered and shown at the largest scale within the limits that has space between the paddings, and at the least one if none has |
| `Viewport.OptionsMean` | frontend/src/lib/canvas-viewport.ts:26-28 | the defaults are a padding of 80 and scales from 0.15 to 1.2; a negative padding counts as none, a minimum below 0.01 as that, and a maximum below the minimum as the minimum |
| `Viewport.NoWidth` | frontend/src/lib/canvas-viewport.ts:24-24 | a viewport without width in which a node is outside although there is room for it |
| `Viewport.MissesWhenRaised` | frontend/src/lib/canvas-viewport.ts:26-41 | in a roomy viewport, with a minimum scale of at most one, that is if and only if the unclamped scale is at least the minimum |
| `Viewport.TooWide` | frontend/src/lib/canvas-viewport.ts:19-42 | a node and a viewport for which the default fit leaves the node outside |

## Left out

- JobTable.JobService.Create: leaves out the input rows, mask, policy and credential work of the same transaction, and the validation before it; a request is the text whose digest is stored, and digests are taken as injective.
- Error messages and their truncation: only codes and whether an error is retryable.
- `Processor.RunOnce` is not one method but the worker steps of `JobProtocol`, because other actors come between its statements; `FOR UPDATE SKIP LOCKED` is left out, so a claim is one atomic step.
- Retries inside the HTTP client of the provider: entries into `DoImageRequest` are counted, not packets.
- SourceExport.ReadSourceJobs: leaves out defaults and clean-up of texts, digests and attempt plans of a job; status, phase, finish and error are modelled.
- Validator.ValidateDataset: leaves out policies, audits, settings, the manifest's counts, and the looks inside JSON values and for secrets, so it accepts more than the program, and the import results cover more exports; those of `ImportFailures` have JSON that the program accepts. Keys that the program joins with NUL are tuples, which is the same for valid rows.
- Validator.ValidateResolutions: leaves out the look for secrets in the reason of a decision.
- Import.TargetDatabase.InsertTargetRows: leaves out the loops over policy, audits and settings, which touch none of the twelve tables; it goes through the others by a list of stages instead of writing one loop for each table.
- Import.TargetDatabase.VerifyTarget: leaves out the comparison of policy, audits and settings and the last count of claimable jobs.
- Import.TargetDatabase.Import: leaves out the preparation of the policy, and what the two lines above leave out.
- Transfer: the policy tables, audits and settings of the import and of its comparison, the reading of the other source tables, files and object contents.
- Transfer: a JSON value is its compact text with names in one order, none twice in an object, and the numbers cut out of it; a time is a number of nanoseconds, counted from the start of the year 1 in UTC and negative before; integers are those of 64 bits. Files are valid UTF-8 and the target's sessions are in UTC. Limits of PostgreSQL on index entries and sizes of values are left out, and collations are total orders.
- Save protocol: creation, loading, deletion, reload, and renames in the client; what an edit changes is one document, and draft storage is atomic apart from the await after a save.
- Event stream: decoding of UTF-8 and JSON, HTTP, and write errors of the printer.
- Editor: references, parameters and the checks of `Update` and `Create` before their statements.
- Recovery.FinishedInAnyOrder: its condition is sufficient; the exact one, source by source, is `RecoveryOrder.StatusInEveryOrder`.
- RecoveryOrder.StatusInEveryOrder: for tasks on distinct image slots that are still waiting, and a source that is not written into by a task and has no connection to a source; sources that wait for one another are left out.
- RecoverySession.LoadCatchesUp: for tasks that are over and bound to image slots; nodes without slots are covered by `RecoveryTargets.SnapshotStores`, one snapshot at a time.
- Recovery: monitors, timers and unmounting; ids carry no surrounding space, which loading would trim, and the open tasks of one load have different ids. A claim is the joined text of node and image, as in the source.
- Proxy: routing, headers, bodies with a length, and maintenance mode.
- Authentication: bearer syntax, profile errors other than their effect on the cache, and a time to live of zero, which never uses the cache.
- Viewport: rounding of floating-point numbers.
- React components, configuration, logging, deployment, gateway details and the older canvas store.
