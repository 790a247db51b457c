# npm-sentinel: scan lifecycle, read model, monitor and scan kernels

A model, with proofs, of what npm-sentinel does with a package from the moment a scan is asked for to the moment its
result is listed: the rows in PostgreSQL, the messages in the broker, the Celery workers and the scheduler, and the
algorithms inside one scan. `dafny verify dfyconfig.toml` checks everything.

## How it is built

- **Tables, Transactions, Lifecycle.** The database is a value, every statement of the repository a function on it,
  every `async with unit_of_work()` block one atomic transaction. `Lifecycle` is the machine: any number of enqueues
  and executions interleave; a publish can fail and its compensation too; a message can be delivered again while it is
  still being worked on; a worker can be lost at any stage; every block can fail before its commit, at it, or after
  it; a retryable exception republishes the message up to three times. A state is *reachable* if some run leads to it.
- **Ownership, Strikes, ScanRows, Results, Markers, Strays, OnceOnly, Jobs, Conservation, Fifo, Termination.** What
  every step keeps, and what therefore holds in every reachable state or over every run, or exactly when it does.
- **Paging, ReadModel.** The window query for the latest scan, the joins, the separately built count queries and the
  limit/offset pages, over arbitrary tables; then composed with the invariants of the lifecycle.
- **Monitor, Settling, Scheduler.** One tick of the scheduler as concurrent tasks sharing counters and a semaphore, in
  any schedule; and ticks mixed with runs of the lifecycle.
- **Registry, Extractor, Downloader, Scoring, InstallHooks.** The loops inside a scan, as methods with invariants.
- **Text, PackageNames.** Python's string functions where they decide something, and the name pattern.
- **Repository, UnitOfWork, UseCases, WorkerTasks.** The imperative code: a repository over a session's rows, the
  commit/rollback boundary, `EnqueueScanUseCase.execute`, `ScanPackageUseCase.execute` and the Celery task. Between
  any two blocks others may do whatever the machine allows them. Every block is proved to be a step of `Lifecycle`, so a
  database handled by this code is always in a reachable state and the theorems above speak about it.

## What turned out

**The row an execution works on is not always still `running`.** A scan row and a message are not tied to each
other: a worker claims the oldest queued row of its package, whoever enqueued it. When a publish fails,
`EnqueueScanUseCase` fails *its own* row by id, provided the row is `running`, which it is exactly when somebody else's
worker has claimed it meanwhile. The worker does not notice: `set_scan_versions` returns silently, the final update
matches no row, and yet the findings are stored and the package is marked as scanned. The handler of a claim whose
transaction was rolled back after its row id had been assigned can do the same. Such a write is called a *strike*.

- A step takes a running row from under an execution if and only if it is a strike (`StrikeExact`), and in a whole run
  every worker always holds a running row if and only if the run has no strike (`ExclusiveIffStrikeFree`).
- `StrikeExample` is a concrete run of the first kind. It ends with a failed scan that has findings, a package
  marked as scanned that has no completed scan, and a completed job without one.
- When that damage is done is stated exactly, on the final transaction alone: findings reach a scan that is not
  completed if and only if that transaction has some and finds its row no longer running (`NoStrayIffNeverStrays`,
  `UnfinishedHasFindingsExactly`, and for `findings_count` `DetailCountsExactly`); a marker becomes untrue if and only
  if it finds so and no completed scan has its version (`MarkersTrueIffNeverMismarks`); a completed job lacks a
  completed scan if and only if all its final transactions were on struck rows (`CompletedJobExact`).
- Ownership itself, score agreement of completed scans, terminal rows, one claim and one final transaction a scan, job
  order and the law of queued rows hold with strikes or without.

**A download can leave a file behind without succeeding,** exactly when an exception outside the caught families
(`httpx.HTTPError`, `OSError`, the size and integrity errors) arrives once the file is open: `LeavesExactly`,
and `EscapeLeavesFile` for a case.

**A registry document is refused if any version at all lacks a readable timestamp,** chosen or not: `FetchMetadata`.

Where the repository's own README differs from its code: it says a duplicate delivery produces a separate scan
attempt; in the code it claims the next queued row of the package, whichever enqueue that belongs to, and creates a
row only if none is queued (`LineMoves`, `QueuedRowsConserved`). Its example query for failed scans with high risk can
have no result, since a scan that is not completed has risk `unknown` (`ShapesReachable`).

## Model

| member | source | states |
|---|---|---|
| Ownership.InvNext | app/application/use_cases/scan_package.py:57-268 | The ownership invariant is inductive: whatever step anybody takes next, references stay sound, no row has two owners, each owner's row is running or was struck, and a running row without owner was abandoned |
| Ownership.InvRun | app/worker/tasks.py:128-151 | The invariant survives every run, from any state that has it |
| Ownership.InvReachable | app/worker/celery_app.py:37 | It therefore holds in every reachable state, worker losses and redeliveries included |
| Ownership.ExclusiveOwnership | app/infrastructure/db/repositories.py:118-138 | In no reachable state do two executions own the same scan row |
| Strikes.StrikeExact | app/application/use_cases/enqueue_scan.py:49-62 | A step takes a running row away from an execution working on it if and only if it is a strike |
| Strikes.ExclusiveIffStrikeFree | app/application/use_cases/scan_package.py:207-214 | Over a run, every row reaching set-versions or the final transaction is still running if and only if no step of the run is a strike |
| Strikes.ExclusiveIffStrikeFreeFromStart | app/application/use_cases/scan_package.py:90-108 | The same for runs from the empty system, without assuming an invariant |
| Strikes.StruckIffStrike | app/application/use_cases/scan_package.py:241-268 | The history records a struck row exactly for runs that contain a strike |
| StrikeExample.FirstRowStruck | app/application/use_cases/enqueue_scan.py:51-61 | A concrete run in which a failed publish fails the row another enqueue's worker has claimed |
| StrikeExample.VersionsNotWritten | app/infrastructure/db/repositories.py:149-150 | In that run set-versions goes through and writes nothing to the row |
| StrikeExample.StruckScanKeepsFindings | app/infrastructure/db/repositories.py:207-218 | It goes on to a failed scan that has the findings, and a marked package without a completed scan |
| StrikeExample.CompletedJobWithoutScan | app/worker/tasks.py:142-145 | and ends with a completed job while no scan is completed |
| ScanRows.WritesAreLegal | app/infrastructure/db/repositories.py:96-190 | Every step changes at most one scan row, and that by one of the five statements, applied to a row in the status it expects |
| ScanRows.RowsMoveForward | app/infrastructure/db/repositories.py:133-190 | No scan disappears; a status only moves queued, running, then completed or failed; the package and creation time never change |
| ScanRows.TerminalForever | app/infrastructure/db/repositories.py:156-190 | A completed or failed row is never written again, over any run |
| ScanRows.ShapesReachable | app/infrastructure/db/repositories.py:104-190 | finished_at iff terminal, error iff failed, score iff completed, risk unknown iff not completed, in every reachable state |
| Results.CompletedScansAgree | app/application/use_cases/scan_package.py:189-214 | A completed scan's score and risk level are those of exactly the findings stored for it |
| Results.CompletedScansCarryTheirRisk | app/application/use_cases/scan_package.py:189-214 | The level stored is low, medium or high as one plus the points of the stored findings, counted by type, is at most 30, 31 to 70 or above; the score is that number, at most 100 |
| Results.UnfinishedScansHaveNoFindings | app/infrastructure/db/repositories.py:192-209 | Findings on a scan that is not completed imply that it was struck; when exactly there are any is UnfinishedHasFindingsExactly below |
| Results.FinaliseExact | app/application/use_cases/scan_package.py:207-214 | The final transaction completes its scan if and only if the row is still running, if and only if it was not struck; findings and marker are written either way |
| Results.ResultsReachable | app/infrastructure/db/repositories.py:207-209 | Findings always refer to existing scans, and no finding id is used twice |
| Strays.StrayExact | app/infrastructure/db/repositories.py:207-209 | A step brings findings to a scan that is not completed if and only if it is a final transaction with findings whose row is no longer running |
| Strays.NoStrayIffNeverStrays | app/application/use_cases/scan_package.py:207-214 | Over a run, only completed scans ever have findings if and only if no step is such a transaction |
| Strays.NoStrayIffNeverStraysFromStart | app/application/use_cases/scan_package.py:207-214 | The same for runs from the empty system, without assuming an invariant |
| Strays.UnfinishedHasFindingsExactly | app/application/use_cases/scan_package.py:207-214 | A scan that is not completed at the end of a run has findings if and only if its own final transaction had some and found the row no longer running |
| Strays.MismarkExact | app/infrastructure/db/repositories.py:211-218 | A step makes a true marker untrue if and only if it is a final transaction whose row is no longer running, of a version no completed scan of the package has |
| Strays.MarkersTrueIffNeverMismarks | app/application/use_cases/scan_package.py:207-214 | Over a run, every marker is always null iff nothing completed and otherwise a completed scan's version, if and only if no step is such a transaction |
| Strays.MarkersTrueIffNeverMismarksFromStart | app/application/use_cases/scan_package.py:207-214 | The same for runs from the empty system |
| OnceOnly.ClaimedAtMostOnce | app/infrastructure/db/repositories.py:118-138 | Over any run a scan row is claimed or created by a claim at most once, and never once it has begun |
| OnceOnly.WorkBeginsWithClaims | app/application/use_cases/scan_package.py:57-70 | Nobody comes to work on a row except by a claim of it |
| OnceOnly.FinishedAtMostOnce | app/application/use_cases/scan_package.py:207-214 | Over any run a scan has at most one final transaction, redeliveries and retries included |
| Markers.MarkerSound | app/infrastructure/db/repositories.py:211-218 | latest_scanned_version is set iff the package has a completed scan or one that finished while struck, and is the version fetched by the final transaction of such a scan |
| Markers.MarkerExact | app/application/use_cases/scan_package.py:207-214 | Without strikes it is null iff nothing completed, and otherwise the version of a completed scan |
| Markers.CompletedScansHaveVersions | app/application/use_cases/scan_package.py:90-108 | A completed scan records its latest version; that and the previous one have their rows, and they differ |
| Markers.VersionIdsReachable | app/infrastructure/db/repositories.py:55-94 | In every reachable state no two version rows share an id |
| Jobs.JobsMoveForward | app/infrastructure/db/repositories.py:231-306 | No step resets a job row, moves a completed one, or completes a job other than its own |
| Jobs.StartedJobsRun | app/worker/tasks.py:70-82 | Marking a job running ends with it running, or completed if and only if it was completed before |
| Jobs.CompletedIsAbsorbing | app/infrastructure/db/repositories.py:256-306 | A completed job row is the same after any run, late failures and duplicates included |
| Jobs.CompletedJobHasScan | app/worker/tasks.py:139-145 | A completed scan job has a final transaction under its own task id on a scan of its package, completed with the fetched version unless it was struck |
| Jobs.CompletedJobExact | app/worker/tasks.py:139-145 | It has a completed scan under its task id if and only if one of its final transactions is on a row that was not struck |
| Jobs.CompletedJobHasCompletedScan | app/worker/tasks.py:139-145 | In a run without strikes it always has one |
| Conservation.QueuedRowsConserved | app/application/use_cases/enqueue_scan.py:32-62 | Queued rows of a package = unclaimed messages + failed publishes + enqueues in flight - repeated claims + fallback creations, in every reachable state |
| Conservation.QueuedRowsBounded | app/application/use_cases/scan_package.py:60-70 | The bounds on queued rows; equality, and no fallback creation, as long as no message was claimed twice |
| Fifo.LineKept | app/infrastructure/db/repositories.py:118-131 | Any step but a claim for the package leaves a queued row queued with the same rows ahead of it |
| Fifo.LineMoves | app/infrastructure/db/repositories.py:118-138 | A claim takes the row if nothing is ahead of it and otherwise moves it up by exactly one |
| Fifo.WaitsItsTurn | app/infrastructure/db/repositories.py:118-138 | Through a run with no more claims for the package than rows ahead, the row stays queued and moves up once a claim |
| Fifo.ClaimedInTurn | app/infrastructure/db/repositories.py:118-138 | A row with k queued rows ahead is taken by exactly the (k+1)-th later claim for its package, whatever else happens |
| Termination.WeightNext | app/worker/tasks.py:112-151 | Every step but an enqueue or a fault makes the weight of messages, retries left and stages smaller |
| Termination.RunsAreBounded | app/worker/tasks.py:112-127 | The length of a run is bounded by its starting weight and its enqueues and faults |
| Termination.EveryRunEnds | app/worker/tasks.py:112-127 | From the empty system a run has at most 34 steps for every enqueue, worker loss and duplicate delivery |
| Termination.Progress | app/worker/tasks.py:128-151 | Nothing deadlocks: unless all is quiet, some step that is neither enqueue nor fault can be taken |
| Termination.QuietLeavesOnlyAbandoned | app/application/use_cases/scan_package.py:260-268 | When all is quiet, a scan still running lost its worker or could not have its failure stored |
| Termination.NothingLeftRunning | app/application/use_cases/scan_package.py:241-268 | A finished run that loses no worker and stores every failure leaves no scan running |
| Tables.NextQueued | app/infrastructure/db/repositories.py:119-131 | The claimed row is the least queued row of the package by (created_at, id), and there is none only if nothing is queued |
| Tables.ReplaceFindingsExact | app/infrastructure/db/repositories.py:207-209 | Afterwards the scan has exactly the new findings, in order, and every other scan those it had |
| Paging.Sorted | app/infrastructure/db/repositories.py:326-328 | Rows under a strict total order have a listing with each row once |
| Paging.SortedUnique | app/infrastructure/db/repositories.py:425-427 | and only one |
| Paging.PagesCoverAll | app/infrastructure/db/repositories.py:463-465 | Pages of any positive size, one after the other, are the listing |
| Paging.PageMeaning | app/infrastructure/db/repositories.py:327-328 | A page is the rows from the offset on, at most as many as the limit, and fewer only at the end |
| ReadModel.LatestScanIsUnique | app/infrastructure/db/repositories.py:543-566 | The window query has exactly one row for a package with a (completed) scan, the greatest by (started_at, id), and none for any other |
| ReadModel.LatestScanIsGreatest | app/infrastructure/db/repositories.py:543-566 | Its row started after every other (completed) scan of the package, or at the same time with a larger id, and a scan of which that holds is its row |
| ReadModel.OuterJoinIsLatest | app/infrastructure/db/repositories.py:325 | The outer join gives each package exactly its latest scan, or nulls |
| ReadModel.RiskJoinIsLatest | app/infrastructure/db/repositories.py:336-338 | The risk join keeps a package iff its latest completed scan has that level |
| ReadModel.CountedMeaning | app/infrastructure/db/repositories.py:316-346 | The count query counts the packages whose name matches and whose latest completed scan has the level |
| ReadModel.PackageRowsAreCounted | app/infrastructure/db/repositories.py:316-348 | Page query and count query agree: one row for each counted package and no other row |
| ReadModel.PackagePagesAgree | app/infrastructure/db/repositories.py:308-359 | total is the length of the listing; pages put together are the listing, each counted package once |
| ReadModel.PackageListingOrder | app/infrastructure/db/repositories.py:326 | The listing goes by last_scanned_at downwards, packages never scanned at the end, and by name |
| ReadModel.VersionPagesAgree | app/infrastructure/db/repositories.py:419-431 | The same for versions, in the order published_at desc nulls last, id desc, which is strict and total |
| ReadModel.VersionOrderIsTotal | app/infrastructure/db/repositories.py:425 | That order is strict and total on the versions of a package whose ids are distinct |
| ReadModel.VersionListingOrder | app/infrastructure/db/repositories.py:419-425 | The listing has all versions of the package, by published_at downwards, those without one at the end, and by id downwards |
| ReadModel.ScanPagesAgree | app/infrastructure/db/repositories.py:452-489 | The join drops and repeats no scan; total, pages and strict order as above |
| ReadModel.ScanListingMeaning | app/infrastructure/db/repositories.py:457-466 | The listing has a scan with its package exactly if status, risk level and name pass the filters given |
| ReadModel.ScanListingOrder | app/infrastructure/db/repositories.py:463 | It goes by started_at and then id, both downwards |
| ReadModel.FindingPagesAgree | app/infrastructure/db/repositories.py:491-540 | The two joins drop and repeat no finding; total, pages and strict order as above |
| ReadModel.FindingListingMeaning | app/infrastructure/db/repositories.py:502-520 | The listing has a finding with its scan's package exactly if severity, type and name pass the filters given |
| ReadModel.FindingListingOrder | app/infrastructure/db/repositories.py:506 | It goes by created_at and then id, both downwards |
| ReadModel.ListingsDropNothing | app/infrastructure/db/repositories.py:457-509 | In every reachable state names and ids are as unique as the listings need, and unfiltered listings have as many rows as there are scans, and findings |
| ReadModel.CountIsTotal | app/infrastructure/db/repositories.py:373-378 | findings_count of a package is the sum over its scans of their findings |
| ReadModel.CountExact | app/infrastructure/db/repositories.py:361-381 | It is the sum over the completed scans alone if and only if no other scan of the package has findings |
| ReadModel.CountsAgreeIffNoStray | app/infrastructure/db/repositories.py:373-378 | Over any tables, that holds of every package if and only if only completed scans have findings |
| ReadModel.DetailCountsExactly | app/infrastructure/db/repositories.py:373-378 | Over a run, every package's findings_count is always the findings of its completed scans if and only if no final transaction with findings finds its row no longer running |
| ReadModel.DetailCountsCompletedFindings | app/infrastructure/db/repositories.py:361-381 | In particular in every run without strikes |
| ReadModel.RiskFiltersPartition | app/infrastructure/db/repositories.py:336-346 | In every reachable state the totals for low, medium and high add up to the packages with a completed scan; `unknown` lists and counts nothing |
| ReadModel.ScannedAndMarked | app/infrastructure/db/repositories.py:211-218 | A package with a completed scan is marked; a marked one without has a scan that finished while struck, and conversely |
| ReadModel.RiskTotalsCountMarked | app/infrastructure/db/repositories.py:336-346 | The three totals add up to the packages with non-null latest_scanned_version if and only if each package with a scan that finished while struck also has a completed one |
| ReadModel.ScannedPackagesAreMarked | app/application/use_cases/scan_package.py:207-214 | Without strikes the packages with a completed scan are exactly the marked ones |
| Monitor.ScheduleIsIrrelevant | app/application/use_cases/monitor_updates.py:60-149 | Any schedule of the tasks ends with the counters of the sequential pass, and its errors in some order |
| Monitor.EveryNameOnce | app/application/use_cases/monitor_updates.py:74-122 | new + updated + unchanged + skipped + failed is the number of names; failed is the number of errors; checked counts the successful fetches |
| Monitor.CountersExactly | app/application/use_cases/monitor_updates.py:74-122 | Each counter is the number of names whose answers meet its condition: skipped are those changed while a scan is running, new and updated those enqueued without and with a stored version, failed those where a question asked raises, each with that error |
| Monitor.FailureExactly | app/application/use_cases/monitor_updates.py:75-122 | A name fails with at most one exception: that of the first of fetch, lookup, running-scan question and enqueue that raises |
| Monitor.FetchesAreBounded | app/application/use_cases/monitor_updates.py:63-82 | At no point of any schedule are more than metadata_concurrency tasks fetching |
| Monitor.StuckOnlyWithoutPermits | app/application/use_cases/monitor_updates.py:63-82 | No schedule deadlocks, unless and exactly when the semaphore has no permits and there are names |
| Monitor.SchedulesEnd | app/application/use_cases/monitor_updates.py:65-70 | No schedule resumes tasks more than five times a name |
| Monitor.MonitorUpdatesResult.RecordFailure | app/application/use_cases/monitor_updates.py:124-133 | One failure more and its error, the class name standing in for an empty message; no other counter changes |
| Monitor.MonitorUpdatesUseCase.ResumeTask | app/application/use_cases/monitor_updates.py:74-122 | The code between two awaits, on the shared result, does what the machine says |
| Monitor.MonitorUpdatesUseCase.ExecuteOnce | app/application/use_cases/monitor_updates.py:60-72 | Whichever task the event loop picks each time, the tick ends, with the sequential counters and a permutation of its errors |
| Settling.TickEnqueuesExactly | app/application/use_cases/monitor_updates.py:89-120 | A tick answered from the tables enqueues the package iff the stored version is not the latest and, where running scans are skipped, none of its scans is running; as new only if nothing is stored |
| Settling.LeftAloneIffMarked | app/application/use_cases/monitor_updates.py:89-105 | A tick leaves a package alone, whatever else it meets, if and only if the stored version is the registry's latest |
| Settling.MarkerMoves | app/application/use_cases/scan_package.py:207-214 | The stored version moves away from v exactly by the final transaction of a scan of the package that fetched something else |
| Settling.Settles | app/application/use_cases/monitor_updates.py:144-149 | While the registry says v, no tick anywhere in a run enqueues the package iff v is stored at its beginning and every scan completing in it fetched v |
| Scheduler.LoadPackageScanState | app/scheduler/main.py:22-28 | Looking the package up by name answers the id and version that settling is stated about, or nothing for an unknown name |
| Scheduler.HasRunningScan | app/scheduler/main.py:30-33 | The answer is whether one of the package's scans is running |
| Registry.ResolvePreviousVersionName | app/infrastructure/npm/registry_client.py:109-130 | The newest version strictly older than the latest, the first listed among equals; None iff there is none; an error iff some version lacks a readable timestamp |
| Registry.PreviousIsUnique | app/infrastructure/npm/registry_client.py:119-130 | That description fits one version at most, and never the latest itself |
| Registry.FetchMetadata | app/infrastructure/npm/registry_client.py:31-76 | Succeeds exactly on acceptable documents, with the latest and that previous version, which differ; the metadata of each is what the document says under its own name |
| Registry.BuildExactly | app/infrastructure/npm/registry_client.py:132-199 | The metadata of a version is its own tarball URL, integrity, size and count in versions[v].dist and its own timestamp in time[v]; it fails exactly if one of them, or dependencies or scripts, has the wrong type |
| Registry.AcceptableExactly | app/infrastructure/npm/registry_client.py:34-70 | The documents accepted, read off their fields: the three objects, a latest version among the versions, a timestamp for every version, and metadata for the latest and the previous one |
| Extractor.SafeExtractor.ValidateArchive | app/infrastructure/scanner/extractor.py:42-57 | Accepts iff member count, every member and every running total are within limits; otherwise raises what is wrong first |
| Extractor.SafeExtractor.Extract | app/infrastructure/scanner/extractor.py:25-40 | Nothing is written unless the whole archive passed; then all members, in order, or those before the first that cannot be written |
| Extractor.PassesExactly | app/infrastructure/scanner/extractor.py:59-98 | A member passes exactly if it has a name, is relative, not too deep, resolves below the root, is of one of four kinds, no file too large and no link out of the root |
| Extractor.ErrorsExactly | app/infrastructure/scanner/extractor.py:59-107 | The limit error is raised exactly for a named, relative member too deep, or inside the root and a file too large; every other refusal is the unsafe-member error |
| Extractor.PartsByPiece | app/infrastructure/scanner/extractor.py:60-70 | Reading a path drops the pieces that are empty or a single dot and keeps every other in order, two dots included |
| Extractor.SiblingIsRefused | app/infrastructure/scanner/extractor.py:70-75 | A member ../x is refused for every root that is not itself called x |
| Extractor.ParentIsRefused | app/infrastructure/scanner/extractor.py:70-75 | and so is the member .. for every root |
| Extractor.AcceptedByTotal | app/infrastructure/scanner/extractor.py:48-57 | With sizes that are not negative, checking the running total is checking the final sum |
| Extractor.AcceptedStaysInside | app/infrastructure/scanner/extractor.py:59-111 | An accepted name resolves to root ++ rel with at most max_path_depth parts in rel, and an accepted link's target to below root |
| Extractor.NeverAboveResolvesBelow | app/infrastructure/scanner/extractor.py:70-75 | A name that never climbs above its start resolves below any root, to the same relative place |
| Extractor.PartsOfJoin | app/infrastructure/scanner/extractor.py:109-111 | Reading back a name joined from proper parts gives those parts |
| Downloader.BuildIntegrityCheck | app/infrastructure/npm/tarball_downloader.py:109-124 | The first token sha1-, sha256-, sha384- or sha512- decides; an integrity error exactly if there is metadata but no such token, or its digest cannot be decoded; no check iff there is no metadata |
| Downloader.TokenExactly | app/infrastructure/npm/tarball_downloader.py:113-117 | A token splits at its first dash, and those four algorithms are the supported ones |
| Downloader.TokenSplits | app/infrastructure/npm/tarball_downloader.py:116 | Joining the two halves of any token with a dash gives it back |
| Downloader.TarballDownloader.WriteStreamToFile | app/infrastructure/npm/tarball_downloader.py:60-87 | Success iff everything arrives, fits and matches the digest, the file then being all of it; otherwise it holds what came before the first failure |
| Downloader.TarballDownloader.OneBreak | app/infrastructure/npm/tarball_downloader.py:71-81 | The loop stops at one place only and for one reason |
| Downloader.TarballDownloader.LeavesExactly | app/infrastructure/npm/tarball_downloader.py:37-56 | Starting without the target, a file is left iff the download succeeds or an uncaught exception arrives once the file is open |
| Downloader.TarballDownloader.EscapeLeavesFile | app/infrastructure/npm/tarball_downloader.py:70-71 | It does happen: an uncaught exception at the first chunk leaves an empty file without success |
| Downloader.TarballDownloader.Download | app/infrastructure/npm/tarball_downloader.py:29-58 | Succeeds exactly when the URL and the metadata are good and nothing goes wrong, with everything sent under the last part of the path; otherwise raises the error belonging to what went wrong first and leaves what LeavesExactly says |
| Scoring.ExplainScore | app/domain/scoring.py:43-56 | One contribution a finding, in order, with the points of its type |
| Scoring.ScoreFormula | app/domain/scoring.py:10-30 | The score is 1 plus the points of the documented table counted by type, at most 100 |
| Scoring.RiskByPoints | app/domain/scoring.py:28-40 | The level is low, medium or high exactly as one plus the points counted by type is at most 30, 31 to 70 or above 70 |
| Scoring.RiskThresholds | app/domain/scoring.py:33-40 | The same thresholds on any number |
| Scoring.ScoreIgnoresOrder | app/domain/scoring.py:28-30 | Permuting the findings changes nothing |
| Scoring.MoreFindingsNeverLowerTheRisk | app/domain/scoring.py:28-40 | Inserting findings anywhere never lowers score or risk level |
| InstallHooks.DetectInstallHooks | app/infrastructure/scanner/install_hook_detector.py:9-57 | The findings are those of each hook in turn, by its presence in the two versions |
| InstallHooks.HookPoints | app/infrastructure/scanner/install_hook_detector.py:17-55 | Against a previous version: 20 points a hook added, 5 a hook kept, none for one removed |
| InstallHooks.HookPointsAlone | app/infrastructure/scanner/install_hook_detector.py:22-55 | Without a previous version: 5 points a hook |
| InstallHooks.HookFindingsExactly | app/infrastructure/scanner/install_hook_detector.py:9-57 | The findings are exactly these: for each of the six hooks, added or removed against the previous version, or else present, with the severity of a hook npm runs on install or of another |
| InstallHooks.OneFindingPerHook | app/infrastructure/scanner/install_hook_detector.py:17-57 | Every finding names a hook of the list, and no two the same one |
| Repository.SqlAlchemyPackageRepository.GetByName | app/infrastructure/db/repositories.py:36-38 | Finds a package of that name, and None only if there is none |
| Repository.SqlAlchemyPackageRepository.UpsertPackage | app/infrastructure/db/repositories.py:40-53 | Inserts under the new id or leaves the row, and returns the id the name has afterwards |
| Repository.SqlAlchemyPackageRepository.UpsertPackageVersion | app/infrastructure/db/repositories.py:55-94 | One row for the package and version, keeping its id if it existed, with the new metadata |
| Repository.SqlAlchemyPackageRepository.CreateScanResult | app/infrastructure/db/repositories.py:96-116 | A new row with no versions, no result and risk unknown |
| Repository.SqlAlchemyPackageRepository.ClaimNextQueuedScan | app/infrastructure/db/repositories.py:118-138 | Finds the least queued row of the package and makes it running, or changes nothing if none is queued |
| Repository.SqlAlchemyPackageRepository.SetScanVersions | app/infrastructure/db/repositories.py:140-154 | Raises for a missing row, writes nothing to one that is not running, and only the two version columns otherwise |
| Repository.SqlAlchemyPackageRepository.MarkScanCompleted | app/infrastructure/db/repositories.py:156-173 | Completes a running row, leaves any other, raises only for a missing one |
| Repository.SqlAlchemyPackageRepository.MarkScanFailed | app/infrastructure/db/repositories.py:175-190 | Fails a running row, leaves any other, raises only for a missing one |
| Repository.SqlAlchemyPackageRepository.AddFindings | app/infrastructure/db/repositories.py:192-205 | Appends one row a finding, in order |
| Repository.SqlAlchemyPackageRepository.ReplaceFindings | app/infrastructure/db/repositories.py:207-209 | Drops the scan's rows, keeps all others in order, appends the new ones, whatever the status |
| Repository.SqlAlchemyPackageRepository.MarkPackageScanned | app/infrastructure/db/repositories.py:211-218 | Sets version and time of an existing package, unconditionally; raises for a missing one |
| Repository.SqlAlchemyPackageRepository.HasRunningScan | app/infrastructure/db/repositories.py:220-229 | The search that stops at the first row found answers whether any scan of the package is running |
| Repository.SqlAlchemyPackageRepository.CreateQueueJob | app/infrastructure/db/repositories.py:231-254 | A queued row if there was none; an existing row is never reset |
| Repository.SqlAlchemyPackageRepository.MarkQueueJobRunning | app/infrastructure/db/repositories.py:256-272 | Starts a queued or failed job, leaves a running or completed one, raises for a missing one |
| Repository.SqlAlchemyPackageRepository.MarkQueueJobCompleted | app/infrastructure/db/repositories.py:274-289 | Completes a queued or running job, leaves a finished one, raises for a missing one |
| Repository.SqlAlchemyPackageRepository.MarkQueueJobFailed | app/infrastructure/db/repositories.py:291-306 | Fails a queued or running job, leaves a finished one, raises for a missing one |
| UnitOfWork.SqlAlchemyRepositoryUnitOfWork.Enter | app/infrastructure/db/unit_of_work.py:12-16 | A new session that sees what is committed, and a repository on it |
| UnitOfWork.SqlAlchemyRepositoryUnitOfWork.Exit | app/infrastructure/db/unit_of_work.py:18-22 | Commits everything the session wrote or, after an exception, nothing; and a commit is a step of the machine |
| UnitOfWork.ValidIsReachable | app/infrastructure/db/unit_of_work.py:6-22 | A database handled only through such blocks is in a reachable state |
| Text.StripExact | app/application/use_cases/enqueue_scan.py:25-26 | What is stripped is white space, at both ends, and all of it |
| Text.WhiteSpaceTable | app/application/use_cases/enqueue_scan.py:25-26 | White space is the 29 characters of Unicode that str.isspace accepts |
| Text.WordsExact | app/infrastructure/npm/tarball_downloader.py:113 | Splitting gives non-empty words free of white space that together are everything else |
| PackageNames.ValidNamesAreStripped | app/application/use_cases/enqueue_scan.py:9-16 | A name the pattern accepts is its own stripped form |
| PackageNames.PatternExactly | app/application/use_cases/enqueue_scan.py:9-16 | The names accepted are those matched in full by the pattern, read as a regular expression: an optional scope and a name |
| UseCases.EnqueueScanUseCase.CommitRows | app/application/use_cases/enqueue_scan.py:31-47 | All or nothing: the package keeps its row or gets a new one, and exactly one queued scan of it and one queued job with name and reason are new |
| UseCases.EnqueueScanUseCase.Compensate | app/application/use_cases/enqueue_scan.py:51-61 | If the block commits the job is failed with "scan queue unavailable" unless it is finished, and so is the scan if it is running; if not, nothing is written |
| UseCases.EnqueueScanUseCase.SendMessage | app/application/use_cases/enqueue_scan.py:50 | The message with name, reason and task id is in the queue, the tables untouched |
| UseCases.EnqueueScanUseCase.Execute | app/application/use_cases/enqueue_scan.py:24-72 | Whatever others do meanwhile, their own publishes included, each outcome has its exact condition: invalid name and failed commit change nothing; success leaves the message for the stripped name in the queue; a refused publish ends with exactly the compensation |
| UseCases.RowsStay | app/application/use_cases/scan_package.py:102-106 | Whatever others have done, an execution finds its package, its scan and its job between its blocks, the scan running, or failed if struck |
| UseCases.EnqueuedRowsStay | app/application/use_cases/enqueue_scan.py:51-61 | and an enqueue its job and its scan |
| UseCases.ScanPackageUseCase.ClaimOrCreate | app/application/use_cases/scan_package.py:57-70 | The scan is the package's oldest queued row, now running and started now, or, if none, a new one, and nothing else is written; each failure has its exact condition, row id and stage |
| UseCases.ScanPackageUseCase.StoreVersions | app/application/use_cases/scan_package.py:90-108 | Succeeds exactly if the commit does; the fetched versions then have rows with their metadata and all others are as they were, and a running scan names both; a rollback changes nothing |
| UseCases.ScanPackageUseCase.StoreResult | app/application/use_cases/scan_package.py:207-214 | Succeeds exactly if the commit does; the scan has exactly these findings and is completed with their score and level unless it was struck, the package is marked, and nothing else is written; a rollback changes nothing |
| UseCases.ScanPackageUseCase.MarkScanFailed | app/application/use_cases/scan_package.py:260-268 | If its block commits a running scan is failed with the message and nothing else is written; otherwise nothing is; either way the exception goes on |
| UseCases.ScanPackageUseCase.TryScan | app/application/use_cases/scan_package.py:56-239 | Others running between its blocks, it succeeds if and only if every block and piece of work does, with what was fetched and found stored on the row claimed; otherwise it raises the first failure, with the row id known by then |
| UseCases.ScanPackageUseCase.Execute | app/application/use_cases/scan_package.py:37-258 | The same if and only if; after the first failure the handler's block is the last step, on the state it finds: a running scan is failed with the message, and it no longer waits unless its claim was rolled back |
| WorkerTasks.RetriedExactly | app/worker/tasks.py:112-127 | Of the exception hierarchy exactly registry timeouts, failed downloads and download timeouts are retried |
| WorkerTasks.Worker.MarkQueueJobRunning | app/worker/tasks.py:70-82 | Creates a missing row, ends with the job running or completed, and writes nothing but that row |
| WorkerTasks.Worker.MarkQueueJobCompleted | app/worker/tasks.py:85-88 | Ends the execution; if its block commits a queued or running job is completed, a finished one left; otherwise nothing is written |
| WorkerTasks.Worker.MarkQueueJobFailed | app/worker/tasks.py:91-94 | If its block commits a queued or running job is failed with the message, a finished one left; otherwise nothing is written and the exception that would have been retried is replaced |
| WorkerTasks.Worker.Acknowledge | app/worker/tasks.py:112-127 | The message comes back one retry further iff the exception allows it, fewer than three retries were made and the broker takes it |
| WorkerTasks.Worker.ScanPackage | app/worker/tasks.py:128-151 | Others running between its blocks, the execution ends; it completes if and only if every block and piece of work succeeds, after a final transaction under its task id; it retries if and only if the first failure allows it, is recorded and a retry is left that the broker takes; the job is marked accordingly |

## Left out

- Strikes.ExclusiveIffStrikeFree: exclusive work on running rows is not claimed for all runs, because the code does not guarantee it; the condition is exact.
- Overlap of single statements: a block is atomic. Claims of one package are serialised by the lock its upsert takes; two blocks overlapping at READ COMMITTED on other rows are not interleaved statement by statement.
- Commit failures in between: a process that dies after an enqueue committed leaves its enqueuer waiting in the model for ever; a publish clearly succeeds or fails.
- UseCases.ScanPackageUseCase.ClaimOrCreate: when the claim created its row and the commit was then rolled back, the handler's attempt to fail the vanished row, which raises and is swallowed, is not run as a block of its own.
- UseCases.EnqueueScanUseCase.Execute: task ids are fresh, not random.
- Results.UnfinishedScansHaveNoFindings: one direction only; the exact statement is Strays.UnfinishedHasFindingsExactly.
- Jobs.CompletedJobHasScan: leaves open whether the scan is completed; exactly when it is, is Jobs.CompletedJobExact.
- ReadModel.DetailCountsCompletedFindings: runs without strikes only; the exact statement is ReadModel.DetailCountsExactly.
- Columns updated_at and created_at of packages, versions and jobs, the JSON columns of versions, and a finding's file path and description.
- Ids are any unused number rather than the next one of a sequence; Fifo states the order of ids it needs.
- Collation of names, ILIKE and the hash functions are parameters; fetching, downloading, extracting to a real file system and analysing are values or exceptions.
- Registry: timestamp syntax is a parameter, and comparing one with a time zone to one without, which raises a TypeError in Python, is not modelled; nor is the HTTP request.
- Extractor: what links do on a real file system; containment is that of the path arithmetic of `Path.resolve` without links.
- Downloader: base64 decoding is a parameter; failures of mkdir, of removing the file, and of closing the stream while another exception is on its way.
- Truncation of stored error messages to 500 characters.
- The enqueue_top_packages batch and its list parser, regex and binary detectors, size comparison, package.json reading, API routes, schemas, configuration, logging and migrations.
