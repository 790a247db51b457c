/**
 The imperative code around the repository: EnqueueScanUseCase, ScanPackageUseCase and the Celery task that runs it.
 Others may run, in any way, between any two blocks, and every block, fetch and publish may fail. Each block is shown
 to be a step of Lifecycle, so whatever is called in whatever order leaves the database in a reachable state.
 */
module UseCases {
  import opened Wrappers
  import opened Text
  import opened PackageNames
  import opened Scoring
  import T = Tables
  import opened Tables
  import opened Transactions
  import opened Lifecycle
  import opened Ownership
  import opened UnitOfWork

  /** An exception: whether Celery retries on it, and its message. */
  datatype Exn = Exn(retryable: bool, message: string)

  /** What becomes of a block whose statements all went through. */
  datatype Fate = Commits | RollsBack(message: string) | RaisesAfterCommit(message: string)

  /** The message of an exception raised once the commit has gone through. */
  function Late(fate: Fate): Option<string> {
    if fate.RaisesAfterCommit? then Some(fate.message) else None
  }

  /** reason.strip() or "manual" */
  function NormalReason(reason: string): string { if Strip(reason) != "" then Strip(reason) else "manual" }

  /** What an execution between two blocks may rely on, whatever others have done: its rows are still there. */
  lemma RowsStay(database: Database, e: nat)
    requires database.Valid() && e in database.state.execs
    ensures var exec, db, struck := database.state.execs[e], database.tables, database.state.hist.struck;
            && exec.message.task in db.jobs
            && (Working(exec.stage) ==>
                  && exec.stage.pid in db.packages && exec.stage.scan in db.scans
                  && db.scans[exec.stage.scan].packageId == exec.stage.pid
                  && exec.message.name in db.packageIds && db.packageIds[exec.message.name] == exec.stage.pid
                  && db.scans[exec.stage.scan].status == if exec.stage.scan in struck then Failed else Running)
            && (exec.stage.Failing? ==>
                  exec.stage.scan in db.scans && db.scans[exec.stage.scan].status != Queued)
            && (exec.stage.Stale? || exec.stage.Committed? ==> exec.stage.scan in db.scans)
  {
    ValidIsReachable(database);
    InvReachable(database.state);
    hide Reachable, ValidRun, Run;
    Facts(database.state, e);
    hide Inv;
  }

  lemma EnqueuedRowsStay(database: Database, q: nat)
    requires database.Valid() && q in database.state.enqueuers
    ensures var sent, db := database.state.enqueuers[q], database.tables;
            && sent.task in db.jobs && sent.scan in db.scans
            && sent.name in db.packageIds && db.scans[sent.scan].packageId == db.packageIds[sent.name]
  {
    ValidIsReachable(database);
    InvReachable(database.state);
    hide Reachable, ValidRun, Run;
    EnqueuerFacts(database.state, q);
    hide Inv;
  }

  // ---------- app/application/use_cases/enqueue_scan.py

  datatype EnqueueError = InvalidName | CommitFailed | QueueUnavailable

  class EnqueueScanUseCase {
    const database: Database

    constructor (database: Database)
      ensures this.database == database
    {
      this.database := database;
    }

    /** The package has its row, new if there was none, and one queued scan and one queued job are new. */
    ghost predicate RowsCommitted(before: Db, after: Db, name: string, reason: string, taskId: TaskId,
                                  scanResultId: ScanId,
                                  now: Time) {
      && name in after.packageIds && after.packageIds[name] in after.packages
      && (if name in before.packageIds then after.packages == before.packages && after.packageIds == before.packageIds
          else
            && after.packageIds[name] !in before.packages
            && after.packages == before.packages[after.packageIds[name] := Package(name, None, None)]
            && after.packageIds == before.packageIds[name := after.packageIds[name]])
      && scanResultId !in before.scans && taskId !in before.jobs
      && after.scans == before.scans[scanResultId := NewScan(after.packageIds[name], Queued, now, now)]
      && after.jobs == before.jobs[taskId := Job(ScanPackageJob, Some(name), reason, Queued, None, None, None)]
      && after.versions == before.versions && after.findings == before.findings
    }

    lemma EnqueueCommits(s: State, task: TaskId, name: string, reason: string, pid: PackageId, sid: ScanId, now: Time)
      requires Reachable(s) && task !in s.db.jobs && pid !in s.db.packages && sid !in s.db.scans
      ensures RowsCommitted(s.db, EnqueueTx(s.db, task, name, reason, pid, sid, now), name, reason, task, sid, now)
    {
      IndexedPackagesExist(s, name);
      EnqueueTxWrites(s.db, task, name, reason, pid, sid, now);
      hide Reachable, EnqueueTx;
    }

    /** The first block: package, queued scan and job in one transaction. */
    method CommitRows(name: string, reason: string, commits: bool, now: Time)
      returns (q: nat, taskId: TaskId, scanResultId: ScanId)
      requires database.Valid()
      modifies database
      ensures database.Valid()
      ensures !commits ==> database.state == old(database.state)
      ensures commits ==>
                && q !in old(database.state.enqueuers) && q in database.state.enqueuers
                && database.state.enqueuers[q] == Enqueuer(taskId, name, reason, scanResultId)
                && RowsCommitted(old(database.tables), database.tables, name, reason, taskId, scanResultId, now)
    {
      q := NextId(database.state.enqueuers.Keys);
      taskId := NextId(database.tables.jobs.Keys);
      var newPackageId := NextId(database.tables.packages.Keys);
      scanResultId := NextId(database.tables.scans.Keys);
      var unit := new SqlAlchemyRepositoryUnitOfWork(database);
      var repository := unit.Enter();
      var packageId := repository.UpsertPackage(name, newPackageId);
      scanResultId := repository.CreateScanResult(packageId, Queued, scanResultId, now);
      repository.CreateQueueJob(taskId, ScanPackageJob, Some(name), reason);
      var step := Enqueue(q, taskId, name, reason, newPackageId, scanResultId, now);
      ValidIsReachable(database);
      EnqueueCommits(database.state, taskId, name, reason, newPackageId, scanResultId, now);
      hide ValidRun, Run, Reachable, RowsCommitted;
      unit.Exit(!commits, if commits then Some(step) else None);
    }

    /** The job and the scan are failed unless they are finished, and for a scan also unless it still waits. */
    ghost predicate Undone(before: Db, after: Db, taskId: TaskId, scanResultId: ScanId, now: Time) {
      taskId in before.jobs && scanResultId in before.scans
      && var job, scan := before.jobs[taskId], before.scans[scanResultId];
      after == before.(
        jobs := before.jobs[taskId := if job.status == Queued || job.status == Running
                                      then job.(status := Failed, error := Some("scan queue unavailable"),
                                                finishedAt := Some(now))
                                      else job],
        scans := before.scans[scanResultId := if scan.status == Running
                                              then scan.(status := Failed, error := Some("scan queue unavailable"),
                                                         finishedAt := Some(now))
                                              else scan])
    }

    /** What follows a QueuePublishError. */
    method Compensate(q: nat, taskId: TaskId, scanResultId: ScanId, commits: bool, now: Time) returns (done: bool)
      requires database.Valid() && q in database.state.enqueuers
      requires database.state.enqueuers[q].task == taskId && database.state.enqueuers[q].scan == scanResultId
      modifies database
      ensures database.Valid() && q !in database.state.enqueuers
      ensures done <==> commits
      ensures if commits then Undone(old(database.tables), database.tables, taskId, scanResultId, now)
              else database.tables == old(database.tables)
      ensures database.state == Next(old(database.state), PublishFails(q, commits, now))
    {
      EnqueuedRowsStay(database, q);
      var unit := new SqlAlchemyRepositoryUnitOfWork(database);
      var repository := unit.Enter();
      var marked := repository.MarkQueueJobFailed(taskId, "scan queue unavailable", now);
      if marked.Ok? {
        marked := repository.MarkScanFailed(scanResultId, "scan queue unavailable", now);
      }
      done := commits && marked.Ok?;
      hide ValidRun, Run, WorkedOn;
      unit.Exit(!done, Some(PublishFails(q, done, now)));
    }

    /**
     Commit, publish, and on a refusal compensate. Others run before the publish and before the compensation; what
     they do may depend on this enqueue, q, whose message they do not send. Any other enqueue may go on meanwhile.
     On a refusal `found` is the state the compensation finds; its own block is the last step made.
     */
    method Execute(packageName: string, reason: string, commits: bool, published: bool, compensates: bool, now: Time,
                   others: nat -> nat -> Others)
      returns (r: Result<TaskId, EnqueueError>, ghost q: nat, ghost found: State)
      requires database.Valid() && forall k, q :: LeaveEnqueuerAlone(others(k)(q), q)
      modifies database
      ensures database.Valid()
      ensures r == Err(InvalidName) <==> !IsValidPackageName(Strip(packageName))
      ensures r == Err(CommitFailed) <==> IsValidPackageName(Strip(packageName)) && !commits
      ensures r.Ok? <==> IsValidPackageName(Strip(packageName)) && commits && published
      ensures r == Err(QueueUnavailable) <==> IsValidPackageName(Strip(packageName)) && commits && !published
      ensures r == Err(InvalidName) || r == Err(CommitFailed) ==> database.state == old(database.state)
      ensures r.Ok? ==> exists m :: m in database.state.queue
                                    && database.state.queue[m] ==
                                       Message(r.value, Strip(packageName),
                                               if Strip(reason) == "" then "manual" else Strip(reason), 0)
      ensures r == Err(QueueUnavailable) ==>
                && Reachable(found) && q in found.enqueuers && q !in database.state.enqueuers
                && found.enqueuers[q].name == Strip(packageName)
                && found.enqueuers[q].reason == (if Strip(reason) == "" then "manual" else Strip(reason))
                && database.state == Next(found, PublishFails(q, compensates, now))
                && if compensates
                   then Undone(found.db, database.tables, found.enqueuers[q].task, found.enqueuers[q].scan, now)
                   else database.tables == found.db
    {
      q, found := 0, database.state;
      var name := Strip(packageName);
      var why := NormalReason(reason);
      if !IsValidPackageName(name) {
        r := Err(InvalidName);
        return;
      }
      hide ValidRun, Run, Next, Enabled, RowsCommitted, Undone, LeaveEnqueuerAlone;
      var id, taskId, scanResultId := CommitRows(name, why, commits, now);
      if !commits {
        r := Err(CommitFailed);
        return;
      }
      q := id;
      Pause(id, others(0)(id));
      if published {
        SendMessage(id);
        r := Ok(taskId);
        return;
      }
      Pause(id, others(1)(id));
      found := database.state;
      ValidIsReachable(database);
      var _ := Compensate(id, taskId, scanResultId, compensates, now);
      r := Err(QueueUnavailable);
    }

    method Pause(q: nat, others: Others)
      requires database.Valid() && q in database.state.enqueuers && LeaveEnqueuerAlone(others, q)
      modifies database
      ensures database.Valid() && q in database.state.enqueuers
      ensures database.state.enqueuers[q] == old(database.state.enqueuers[q])
    {
      OthersKeepEnqueuer(database.state, others(database.state), q);
      database.Pause(others);
    }

    /** The broker accepts the message. */
    method SendMessage(q: nat)
      requires database.Valid() && q in database.state.enqueuers
      modifies database
      ensures database.Valid() && database.tables == old(database.tables)
      ensures var sent := old(database.state.enqueuers[q]);
              && sent.task in database.state.hist.published && database.state.hist.published[sent.task] == sent.name
              && exists m :: m in database.state.queue &&
                   database.state.queue[m] == Message(sent.task, sent.name, sent.reason, 0)
    {
      var m := NextId(database.state.queue.Keys);
      hide ValidRun, Run;
      ghost var sent := database.state.enqueuers[q];
      database.Advance(Publish(q, m), database.tables);
      assert database.state.queue[m] == Message(sent.task, sent.name, sent.reason, 0);
    }
  }

  // ---------- app/application/use_cases/scan_package.py

  /** What the outside world has in store for one scan. */
  datatype ScanInputs = ScanInputs(
    refused: Option<string>, claim: Fate, fetched: Result<Fetched, Exn>, versions: Fate,
    analysed: Result<seq<Finding>, Exn>, final: Fate, persists: bool, now: Time)

  /** The exception of the first block or piece of work that fails. */
  function FirstFailure(inputs: ScanInputs): Option<Exn> {
    if inputs.refused.Some? then Some(Exn(false, inputs.refused.value))
    else if !inputs.claim.Commits? then Some(Exn(false, inputs.claim.message))
    else if inputs.fetched.Err? then Some(inputs.fetched.error)
    else if !inputs.versions.Commits? then Some(Exn(false, inputs.versions.message))
    else if inputs.analysed.Err? then Some(inputs.analysed.error)
    else if !inputs.final.Commits? then Some(Exn(false, inputs.final.message))
    else None
  }

  /**
   The step is possible, moves execution e to the stage, and leaves the tables and the final transactions as given.
   */
  ghost predicate Moves(s: State, step: Step, e: nat, stage: Stage, db: Db, finals: set<Final>) {
    && e in s.execs && Enabled(s, step) && Next(s, step).db == db && Next(s, step).hist.finals == finals
    && e in Next(s, step).execs && Next(s, step).execs[e] == Exec(s.execs[e].message, stage)
  }

  lemma IndexedPackagesExist(s: State, name: string)
    requires Reachable(s)
    ensures name in s.db.packageIds ==> s.db.packageIds[name] in s.db.packages
  {
    InvReachable(s);
  }

  lemma ClaimMoves(s: State, e: nat, pid: PackageId, sid: ScanId, now: Time, raised: Option<string>)
    requires CanClaim(s, e, pid, sid)
    ensures var c := ClaimTx(s.db, s.execs[e].message.name, pid, sid, now);
            Moves(s, ClaimRow(e, pid, sid, now, raised), e,
                  if raised.Some? then Failing(c.scan, false, raised.value) else Claimed(c.pid, c.scan),
                  c.db, s.hist.finals)
  {
    hide ClaimTx;
  }

  lemma RefusedClaimMoves(s: State, e: nat)
    requires e in s.execs && s.execs[e].stage.Started?
    ensures Moves(s, ClaimFails(e), e, Raised(false), s.db, s.hist.finals)
  {
  }

  lemma RolledBackClaimMoves(s: State, e: nat, pid: PackageId, text: string)
    requires Reachable(s) && e in s.execs && s.execs[e].stage.Started? && pid !in s.db.packages
    ensures var queued := NextQueued(s.db.scans, PackageIdOf(s.db, s.execs[e].message.name, pid));
            Moves(s, ClaimCommitFails(e, text), e,
                  if queued.Some? then Stale(queued.value, text) else Raised(false), s.db, s.hist.finals)
  {
    InvReachable(s);
    NothingQueuedForNewPackage(s, pid);
    hide Reachable, Inv;
  }

  lemma WorkFailsMoves(s: State, e: nat, retryable: bool, text: string)
    requires e in s.execs && Working(s.execs[e].stage)
    ensures Moves(s, WorkFails(e, retryable, text), e,
                  Failing(s.execs[e].stage.scan, retryable, text), s.db, s.hist.finals)
  {
  }

  lemma VersionsMove(s: State, e: nat, fetched: Fetched, id: nat, previousId: nat, raised: Option<string>)
    requires CanSetVersions(s, e, fetched, id, previousId)
    ensures var c := s.execs[e].stage;
            Moves(s, SetVersions(e, fetched, id, previousId, raised), e,
                  if raised.Some? then Failing(c.scan, false, raised.value)
                  else Versioned(c.pid, c.scan, fetched.latest),
                  OrRollback(s.db, VersionsTx(s.db, c.pid, c.scan, fetched, id, previousId)), s.hist.finals)
  {
    hide VersionsTx;
  }

  lemma FinalMoves(s: State, e: nat, findings: seq<Finding>, ids: seq<FindingId>, now: Time, raised: Option<string>)
    requires CanFinalise(s, e, findings, ids)
    ensures var v := s.execs[e].stage;
            Moves(s, Finalise(e, findings, ids, now, raised), e,
                  if raised.Some? then Failing(v.scan, false, raised.value) else Committed(v.scan, v.latest),
                  OrRollback(s.db, FinalTx(s.db, v.pid, v.scan, v.latest, findings, ids, now)),
                  s.hist.finals + {Final(s.execs[e].message.task, v.scan, v.latest)})
    ensures Next(s, Finalise(e, findings, ids, now, raised)).hist.struck == s.hist.struck
  {
    hide FinalTx;
  }

  lemma PersistMoves(s: State, e: nat, ok: bool, now: Time)
    requires CanPersist(s, e)
    ensures var f := s.execs[e].stage;
            Moves(s, PersistFailure(e, ok, now), e, Raised(f.Failing? && f.retryable),
                  if ok then OrRollback(s.db, T.MarkScanFailed(s.db, f.scan, f.message, now)) else s.db, s.hist.finals)
  {
    hide T.MarkScanFailed, WorkedOn;
  }

  class ScanPackageUseCase {
    const database: Database

    constructor (database: Database)
      ensures this.database == database
    {
      this.database := database;
    }

    ghost predicate At(e: nat, message: Message, stage: Stage)
      reads database
    {
      database.Valid() && e in database.state.execs && database.state.execs[e] == Exec(message, stage)
    }

    /** The oldest queued scan of the package of that name, if it has one. */
    function QueuedFor(db: Db, name: string): Option<ScanId> {
      if name in db.packageIds then NextQueued(db.scans, db.packageIds[name]) else None
    }

    /**
     The package has its row, new if there was none, and the scan runs: its oldest queued one, or a new one if none was
     queued. Nothing else is written.
     */
    ghost predicate Took(before: Db, after: Db, name: string, packageId: PackageId, scanResultId: ScanId, now: Time) {
      && after == before.(packages := after.packages, packageIds := after.packageIds, scans := after.scans)
      && name in after.packageIds && after.packageIds[name] == packageId && packageId in after.packages
      && (if name in before.packageIds then after.packages == before.packages && after.packageIds == before.packageIds
          else
            && packageId !in before.packages
            && after.packages == before.packages[packageId := Package(name, None, None)]
            && after.packageIds == before.packageIds[name := packageId])
      && match QueuedFor(before, name)
         case Some(oldest) =>
           && scanResultId == oldest && oldest in before.scans && before.scans[oldest].status == Queued
           && after.scans == before.scans[oldest := before.scans[oldest].(
                               status := Running, startedAt := now, finishedAt := None, error := None)]
         case None =>
           && scanResultId !in before.scans
           && after.scans == before.scans[scanResultId :=
                               Scan(packageId, None, None, Running, None, Unknown, None, now, None, now)]
    }

    lemma ClaimTakes(s: State, name: string, newPackageId: PackageId, newScanId: ScanId, now: Time)
      requires Reachable(s) && newPackageId !in s.db.packages && newScanId !in s.db.scans
      ensures NextQueued(s.db.scans, PackageIdOf(s.db, name, newPackageId)) == QueuedFor(s.db, name)
      ensures var c := ClaimTx(s.db, name, newPackageId, newScanId, now); Took(s.db, c.db, name, c.pid, c.scan, now)
    {
      InvReachable(s);
      NothingQueuedForNewPackage(s, newPackageId);
      IndexedPackagesExist(s, name);
      hide Reachable, Inv;
    }

    /** The claim: the oldest queued row, or a new running one. No id is assigned if it fails before that. */
    method ClaimOrCreate(e: nat, message: Message, refused: Option<string>, fate: Fate, now: Time)
      returns (packageId: PackageId, scanResultId: Option<ScanId>, r: Result<(), Exn>)
      requires At(e, message, Started)
      modifies database
      ensures r.Ok? <==> refused.None? && fate.Commits?
      ensures r.Err? ==> r.error == Exn(false, if refused.Some? then refused.value else fate.message)
      ensures if refused.Some? || fate.RollsBack? then database.tables == old(database.tables)
              else
                && scanResultId.Some?
                && Took(old(database.tables), database.tables, message.name, packageId, scanResultId.value, now)
      ensures var queued := QueuedFor(old(database.tables), message.name);
              if refused.Some? then scanResultId.None?
              else if fate.RollsBack? || queued.Some? then scanResultId == queued
              else scanResultId.Some? && scanResultId.value !in old(database.tables.scans)
      ensures r.Ok? ==> At(e, message, Claimed(packageId, scanResultId.value))
      ensures r.Err? && scanResultId.None? ==> At(e, message, Raised(false))
      ensures r.Err? && scanResultId.Some? ==>
                At(e, message, if fate.RollsBack? then Stale(scanResultId.value, r.error.message)
                               else Failing(scanResultId.value, false, r.error.message))
      ensures database.state.hist.finals == old(database.state.hist.finals) && old(database.trace) <= database.trace
    {
      hide ValidRun, Run, Next, Enabled, NextQueued, Took, QueuedFor;
      ghost var s := database.state;
      ValidIsReachable(database);
      var newPackageId := NextId(database.tables.packages.Keys);
      var newScanId := NextId(database.tables.scans.Keys);
      ClaimTakes(s, message.name, newPackageId, newScanId, now);
      packageId, scanResultId := newPackageId, None;
      var unit := new SqlAlchemyRepositoryUnitOfWork(database);
      var repository := unit.Enter();
      if refused.Some? {
        RefusedClaimMoves(s, e);
        hide Reachable;
        unit.Exit(true, Some(ClaimFails(e)));
        r := Err(Exn(false, refused.value));
        return;
      }
      packageId := repository.UpsertPackage(message.name, newPackageId);
      var queuedScan := repository.ClaimNextQueuedScan(packageId, now);
      if queuedScan.Some? {
        scanResultId := queuedScan;
      } else {
        var scanId := repository.CreateScanResult(packageId, Running, newScanId, now);
        scanResultId := Some(scanId);
      }
      match fate
      case Commits =>
        ClaimMoves(s, e, newPackageId, newScanId, now, None);
        hide Reachable;
        unit.Exit(false, Some(ClaimRow(e, newPackageId, newScanId, now, None)));
        r := Ok(());
      case RaisesAfterCommit(text) =>
        ClaimMoves(s, e, newPackageId, newScanId, now, Some(text));
        hide Reachable;
        unit.Exit(false, Some(ClaimRow(e, newPackageId, newScanId, now, Some(text))));
        r := Err(Exn(false, text));
      case RollsBack(text) =>
        RolledBackClaimMoves(s, e, newPackageId, text);
        hide Reachable;
        unit.Exit(true, Some(ClaimCommitFails(e, text)));
        r := Err(Exn(false, text));
        if queuedScan.None? {
          // The row is gone with the rollback: failing it would raise in `_mark_scan_failed`, which swallows that.
          scanResultId := None;
        }
    }

    /** Execution e set these versions after the first `from` steps. */
    ghost predicate VersionsSet(trace: seq<Step>, from: nat, e: nat, metadata: Fetched, fate: Fate) {
      exists id, previousId :: Made(trace, from, SetVersions(e, metadata, id, previousId, Late(fate)))
    }

    lemma VersionsJustSet(trace: seq<Step>, e: nat, metadata: Fetched, fate: Fate, id: nat, previousId: nat)
      ensures VersionsSet(trace + [SetVersions(e, metadata, id, previousId, Late(fate))], |trace|, e, metadata, fate)
    {
      var step := SetVersions(e, metadata, id, previousId, Late(fate));
      assert (trace + [step])[|trace|] == step;
      assert Made(trace + [step], |trace|, step);
    }

    lemma VersionsStaySet(trace: seq<Step>, longer: seq<Step>, from: nat, later: nat, e: nat, metadata: Fetched,
                          fate: Fate)
      requires VersionsSet(trace, later, e, metadata, fate) && trace <= longer && from <= later
      ensures VersionsSet(longer, from, e, metadata, fate)
    {
      hide Made;
      var id, previousId :| Made(trace, later, SetVersions(e, metadata, id, previousId, Late(fate)));
      MadeStays(trace, longer, from, later, SetVersions(e, metadata, id, previousId, Late(fate)));
    }

    /**
     The fetched versions have their rows, new or with the metadata replaced, every other version is as it was, and a
     running scan names both.
     */
    ghost predicate VersionsStored(before: Db, after: Db, packageId: PackageId, scanResultId: ScanId,
                                   metadata: Fetched) {
      scanResultId in before.scans
      && var row, latest := before.scans[scanResultId], VersionKey(packageId, metadata.latest);
      && var previous := match metadata.previous
                         case Some(p) => map[VersionKey(packageId, p.version) := p.metadata]
                         case None => map[];
      && after == before.(
           versions := after.versions,
           scans := before.scans[scanResultId :=
             if row.status != Running then row
             else row.(latestVersion := Some(metadata.latest), previousVersion := PreviousName(metadata))])
      && after.versions.Keys == before.versions.Keys + {latest} + previous.Keys
      && after.versions[latest].metadata == metadata.metadata
      && (forall key :: key in previous ==> after.versions[key].metadata == previous[key])
      && (forall key :: key in before.versions ==>
            && after.versions[key].id == before.versions[key].id
            && (key == latest || key in previous || after.versions[key] == before.versions[key]))
    }

    lemma VersionsAreStored(db: Db, packageId: PackageId, scanResultId: ScanId, metadata: Fetched,
                            id: nat, previousId: nat)
      requires scanResultId in db.scans && WellFormed(metadata)
      ensures var r := VersionsTx(db, packageId, scanResultId, metadata, id, previousId);
              r.Some? && VersionsStored(db, r.value, packageId, scanResultId, metadata)
    {
      var latest := VersionKey(packageId, metadata.latest);
      var d := UpsertVersion(db, packageId, metadata.latest, metadata.metadata, id);
      if metadata.previous.Some? {
        var p := metadata.previous.value;
        var key := VersionKey(packageId, p.version);
        var d' := UpsertVersion(d, packageId, p.version, p.metadata, previousId);
        assert key != latest;
        assert d'.versions.Keys == db.versions.Keys + {latest} + {key};
      }
    }

    method StoreVersions(e: nat, message: Message, packageId: PackageId, scanResultId: ScanId, metadata: Fetched,
                         fate: Fate)
      returns (r: Result<(), Exn>)
      requires At(e, message, Claimed(packageId, scanResultId)) && WellFormed(metadata)
      modifies database
      ensures r.Ok? <==> fate.Commits?
      ensures r.Err? ==> r.error == Exn(false, fate.message)
      ensures if fate.RollsBack? then database.tables == old(database.tables)
              else
                && VersionsStored(old(database.tables), database.tables, packageId, scanResultId, metadata)
                && VersionsSet(database.trace, |old(database.trace)|, e, metadata, fate)
      ensures r.Ok? ==> At(e, message, Versioned(packageId, scanResultId, metadata.latest))
      ensures r.Err? ==> At(e, message, Failing(scanResultId, false, fate.message))
      ensures database.state.hist.finals == old(database.state.hist.finals) && old(database.trace) <= database.trace
    {
      hide ValidRun, Run, Next, Enabled, VersionsStored, VersionsSet, VersionedRow, WellFormed;
      ghost var s := database.state;
      RowsStay(database, e);
      var id, previousId := NextVersionIds(database.tables.versions);
      var unit := new SqlAlchemyRepositoryUnitOfWork(database);
      var repository := unit.Enter();
      repository.UpsertPackageVersion(packageId, metadata.latest, metadata.metadata, id);
      if metadata.previous.Some? {
        repository.UpsertPackageVersion(packageId, metadata.previous.value.version, metadata.previous.value.metadata,
                                        previousId);
      }
      var done := repository.SetScanVersions(scanResultId, metadata.latest, PreviousName(metadata));
      ghost var after := unit.session.Contents();
      assert VersionsTx(s.db, packageId, scanResultId, metadata, id, previousId)
             == if done.Ok? then Some(after) else None;
      hide VersionsTx, UpsertVersion, Tables.SetScanVersions, PreviousName;
      if done.Err? || fate.RollsBack? {
        var text := if done.Err? then "scan result not found" else fate.message;
        WorkFailsMoves(s, e, false, text);
        unit.Exit(true, Some(WorkFails(e, false, text)));
        r := Err(Exn(false, text));
        return;
      }
      VersionsAreStored(s.db, packageId, scanResultId, metadata, id, previousId);
      VersionsMove(s, e, metadata, id, previousId, Late(fate));
      unit.Exit(false, Some(SetVersions(e, metadata, id, previousId, Late(fate))));
      VersionsJustSet(old(database.trace), e, metadata, fate, id, previousId);
      r := if fate.RaisesAfterCommit? then Err(Exn(false, fate.message)) else Ok(());
    }

    /**
     The findings are the scan's findings, the row is completed with their score and level if it was running, and the
     package is marked with the version. Findings of other scans stay.
     */
    ghost predicate Stored(before: Db, after: Db, packageId: PackageId, scanResultId: ScanId, latest: string,
                           findings: seq<Finding>, now: Time) {
      scanResultId in before.scans && packageId in before.packages
      && var row, score := before.scans[scanResultId], CalculateScore(findings);
      && after == before.(
           packages := before.packages[packageId := before.packages[packageId].(
             latestScanned := Some(latest), lastScannedAt := Some(now))],
           scans := before.scans[scanResultId :=
             if row.status != Running then row
             else row.(status := Completed, score := Some(score), risk := CalculateRiskLevel(score), error := None,
                       finishedAt := Some(now))],
           findings := after.findings)
      && forall scan :: FindingsOf(after.findings, scan)
                        == if scan == scanResultId then findings else FindingsOf(before.findings, scan)
    }

    lemma FinalStores(db: Db, packageId: PackageId, scanResultId: ScanId, latest: string,
                      findings: seq<Finding>, ids: seq<FindingId>, now: Time)
      requires |ids| == |findings| && scanResultId in db.scans && packageId in db.packages
      ensures var r := FinalTx(db, packageId, scanResultId, latest, findings, ids, now);
              r.Some? && Stored(db, r.value, packageId, scanResultId, latest, findings, now)
    {
      FinalTxWrites(db, packageId, scanResultId, latest, findings, ids, now);
      hide FinalTx, ReplaceFindings, FindingsOf, CalculateScore, CalculateRiskLevel;
      forall scan
        ensures FindingsOf(ReplaceFindings(db, scanResultId, findings, ids, now).findings, scan)
                == if scan == scanResultId then findings else FindingsOf(db.findings, scan)
      {
        ReplaceFindingsExact(db, scanResultId, findings, ids, now, scan);
      }
    }

    method StoreResult(e: nat, message: Message, packageId: PackageId, scanResultId: ScanId, latest: string,
                       findings: seq<Finding>, fate: Fate, now: Time)
      returns (r: Result<(), Exn>)
      requires At(e, message, Versioned(packageId, scanResultId, latest))
      modifies database
      ensures r.Ok? <==> fate.Commits?
      ensures r.Err? ==> r.error == Exn(false, fate.message)
      ensures if fate.RollsBack? then database.tables == old(database.tables)
              else
                && Stored(old(database.tables), database.tables, packageId, scanResultId, latest, findings, now)
                && Final(message.task, scanResultId, latest) in database.state.hist.finals
                && database.tables.scans[scanResultId].status
                   == (if scanResultId in database.state.hist.struck then Failed else Completed)
      ensures r.Ok? ==> At(e, message, Committed(scanResultId, latest))
      ensures r.Err? ==> At(e, message, Failing(scanResultId, false, fate.message))
      ensures old(database.trace) <= database.trace
    {
      hide ValidRun, Run, Next, Enabled, Stored;
      ghost var s := database.state;
      RowsStay(database, e);
      var ids := NextFindingIds(database.tables.findings, |findings|);
      var score := CalculateScore(findings);
      var riskLevel := CalculateRiskLevel(score);
      hide FreshIds, CalculateScore, CalculateRiskLevel;
      var unit := new SqlAlchemyRepositoryUnitOfWork(database);
      var repository := unit.Enter();
      repository.ReplaceFindings(scanResultId, findings, ids, now);
      var done := repository.MarkScanCompleted(scanResultId, score, riskLevel, now);
      if done.Ok? {
        done := repository.MarkPackageScanned(packageId, latest, now);
      }
      if done.Err? || fate.RollsBack? {
        var text := if done.Err? then "row not found" else fate.message;
        WorkFailsMoves(s, e, false, text);
        unit.Exit(true, Some(WorkFails(e, false, text)));
        return Err(Exn(false, text));
      }
      FinalMoves(s, e, findings, ids, now, Late(fate));
      FinalStores(s.db, packageId, scanResultId, latest, findings, ids, now);
      unit.Exit(false, Some(Finalise(e, findings, ids, now, Late(fate))));
      r := if fate.RaisesAfterCommit? then Err(Exn(false, fate.message)) else Ok(());
    }

    /** A running scan is failed with the message; any other row stays. */
    ghost predicate ScanFailed(before: Db, after: Db, scanResultId: ScanId, text: string, now: Time) {
      scanResultId in before.scans
      && var row := before.scans[scanResultId];
      after == before.(scans := before.scans[scanResultId :=
        if row.status != Running then row
        else row.(status := Failed, error := Some(text), finishedAt := Some(now))])
    }

    /** `_mark_scan_failed`: whatever goes wrong here is logged and forgotten. */
    method MarkScanFailed(e: nat, message: Message, scanResultId: ScanId, text: string, ghost retryable: bool,
                          commits: bool, now: Time)
      requires || At(e, message, Failing(scanResultId, retryable, text))
               || (!retryable && At(e, message, Stale(scanResultId, text)))
      modifies database
      ensures At(e, message, Raised(retryable))
      ensures if commits then ScanFailed(old(database.tables), database.tables, scanResultId, text, now)
              else database.tables == old(database.tables)
      ensures database.trace == old(database.trace) + [PersistFailure(e, commits, now)]
    {
      hide ValidRun, Run, Next, Enabled;
      ghost var s := database.state;
      RowsStay(database, e);
      var unit := new SqlAlchemyRepositoryUnitOfWork(database);
      var repository := unit.Enter();
      var marked := repository.MarkScanFailed(scanResultId, text, now);
      var done := commits && marked.Ok?;
      PersistMoves(s, e, done, now);
      unit.Exit(!done, Some(PersistFailure(e, done, now)));
    }

    /** The work between two blocks raises. */
    method Raise(e: nat, message: Message, exc: Exn)
      requires database.Valid() && e in database.state.execs && database.state.execs[e].message == message
      requires Working(database.state.execs[e].stage)
      modifies database
      ensures At(e, message, Failing(old(database.state.execs[e].stage.scan), exc.retryable, exc.message))
      ensures old(database.trace) <= database.trace
    {
      hide ValidRun, Run, Next, Enabled;
      WorkFailsMoves(database.state, e, exc.retryable, exc.message);
      database.Advance(WorkFails(e, exc.retryable, exc.message), database.tables);
    }

    /**
     The final transaction is committed: the package is marked with the version, and the scan has the findings and,
     unless someone has failed it meanwhile, their score and level.
     */
    ghost predicate Finished(task: TaskId, name: string, scanResultId: ScanId, latest: string, findings: seq<Finding>)
      reads database
    {
      var db := database.tables;
      && Final(task, scanResultId, latest) in database.state.hist.finals
      && FindingsOf(db.findings, scanResultId) == findings
      && scanResultId in db.scans && name in db.packageIds && db.packageIds[name] in db.packages
      && db.packages[db.packageIds[name]].latestScanned == Some(latest)
      && var row := db.scans[scanResultId];
      && row.packageId == db.packageIds[name]
      && row.status == (if scanResultId in database.state.hist.struck then Failed else Completed)
      && (row.status == Completed ==>
            && row.score == Some(CalculateScore(findings))
            && row.risk == CalculateRiskLevel(CalculateScore(findings)))
    }

    lemma StoredFinishes(before: Db, name: string, packageId: PackageId, scanResultId: ScanId, latest: string,
                         findings: seq<Finding>, now: Time)
      requires Stored(before, database.tables, packageId, scanResultId, latest, findings, now)
      requires name in before.packageIds && before.packageIds[name] == packageId
      requires before.scans[scanResultId].packageId == packageId && before.scans[scanResultId].status != Completed
      requires database.tables.scans[scanResultId].status
               == if scanResultId in database.state.hist.struck then Failed else Completed
      ensures forall task :: Final(task, scanResultId, latest) in database.state.hist.finals ==>
                               Finished(task, name, scanResultId, latest, findings)
    {
      hide FindingsOf, CalculateScore, CalculateRiskLevel;
    }

    /**
     The body of the `try`: the blocks and the work between them, up to the first exception. It goes through exactly
     if every one of them does.
     */
    method TryScan(e: nat, message: Message, inputs: ScanInputs, others: nat -> Others)
      returns (scanResultId: Option<ScanId>, latestVersion: Option<string>, r: Result<(), Exn>)
      requires At(e, message, Started) && (inputs.fetched.Ok? ==> WellFormed(inputs.fetched.value))
      requires forall k :: LeaveExecAlone(others(k), e)
      modifies database
      ensures r.Ok? <==> inputs.refused.None? && inputs.claim.Commits? && inputs.fetched.Ok?
                         && inputs.versions.Commits? && inputs.analysed.Ok? && inputs.final.Commits?
      ensures FirstFailure(inputs) == if r.Ok? then None else Some(r.error)
      ensures var queued := QueuedFor(old(database.tables), message.name);
              if inputs.refused.Some? then scanResultId.None?
              else if inputs.claim.RollsBack? || queued.Some? then scanResultId == queued
              else scanResultId.Some? && scanResultId.value !in old(database.tables.scans)
      ensures inputs.refused.None? && inputs.claim.Commits? && inputs.fetched.Ok? && !inputs.versions.RollsBack? ==>
                VersionsSet(database.trace, |old(database.trace)|, e, inputs.fetched.value, inputs.versions)
      ensures r.Ok? ==>
                && latestVersion == Some(inputs.fetched.value.latest)
                && At(e, message, Committed(scanResultId.value, latestVersion.value))
                && Finished(message.task, message.name, scanResultId.value, latestVersion.value, inputs.analysed.value)
      ensures r.Err? && scanResultId.None? ==>
                At(e, message, Raised(r.error.retryable)) && database.tables == old(database.tables)
      ensures r.Err? && scanResultId.Some? ==>
                At(e, message, if inputs.claim.RollsBack? then Stale(scanResultId.value, r.error.message)
                               else Failing(scanResultId.value, r.error.retryable, r.error.message))
      ensures old(database.trace) <= database.trace
    {
      hide Database.Valid, LeaveExecAlone, VersionsStored, VersionsSet, Stored, Finished, QueuedFor, Took;
      var packageId: PackageId;
      latestVersion := None;
      packageId, scanResultId, r := ClaimOrCreate(e, message, inputs.refused, inputs.claim, inputs.now);
      if r.Err? {
        return;
      }
      PauseExec(database, others(0), e);
      match inputs.fetched {
        case Err(exc) =>
          Raise(e, message, exc);
          r := Err(exc);
          return;
        case Ok(metadata) =>
          latestVersion := Some(metadata.latest);
          ghost var before := |database.trace|;
          r := StoreVersions(e, message, packageId, scanResultId.value, metadata, inputs.versions);
          if !inputs.versions.RollsBack? {
            VersionsStaySet(database.trace, database.trace, |old(database.trace)|, before, e, metadata,
                            inputs.versions);
          }
      }
      ghost var soFar := database.trace;
      if r.Err? {
        return;
      }
      PauseExec(database, others(1), e);
      match inputs.analysed {
        case Err(exc) =>
          Raise(e, message, exc);
          r := Err(exc);
        case Ok(findings) =>
          RowsStay(database, e);
          ghost var before := database.tables;
          r := StoreResult(e, message, packageId, scanResultId.value, latestVersion.value,
                           findings, inputs.final, inputs.now);
          if r.Ok? {
            StoredFinishes(before, message.name, packageId, scanResultId.value, latestVersion.value, findings,
                           inputs.now);
          }
      }
      VersionsStaySet(soFar, database.trace, |old(database.trace)|, |old(database.trace)|, e, inputs.fetched.value,
                      inputs.versions);
    }

    /** The handler finds the state and ends the failing scan there, if its block commits. */
    ghost predicate Handled(found: State, e: nat, message: Message, scanResultId: ScanId, exc: Exn, stale: bool,
                            persists: bool, now: Time)
      reads database
    {
      && Reachable(found) && e in found.execs && scanResultId in found.db.scans
      && found.execs[e] == Exec(message, if stale then Stale(scanResultId, exc.message)
                                         else Failing(scanResultId, exc.retryable, exc.message))
      && (stale || found.db.scans[scanResultId].status != Queued)
      && |database.trace| > 0 && database.trace[|database.trace| - 1] == PersistFailure(e, persists, now)
      && if persists then ScanFailed(found.db, database.tables, scanResultId, exc.message, now)
         else database.tables == found.db
    }

    /**
     Ends with the scan's final transaction committed, or with the exception raised again after the handler, which
     found the state returned.
     */
    method Execute(e: nat, message: Message, inputs: ScanInputs, others: nat -> Others)
      returns (r: Result<(), Exn>, ghost scanResultId: Option<ScanId>, ghost found: State)
      requires At(e, message, Started) && (inputs.fetched.Ok? ==> WellFormed(inputs.fetched.value))
      requires forall k :: LeaveExecAlone(others(k), e)
      modifies database
      ensures r.Ok? <==> inputs.refused.None? && inputs.claim.Commits? && inputs.fetched.Ok?
                         && inputs.versions.Commits? && inputs.analysed.Ok? && inputs.final.Commits?
      ensures FirstFailure(inputs) == if r.Ok? then None else Some(r.error)
      ensures var queued := QueuedFor(old(database.tables), message.name);
              if inputs.refused.Some? then scanResultId.None?
              else if inputs.claim.RollsBack? || queued.Some? then scanResultId == queued
              else scanResultId.Some? && scanResultId.value !in old(database.tables.scans)
      ensures inputs.refused.None? && inputs.claim.Commits? && inputs.fetched.Ok? && !inputs.versions.RollsBack? ==>
                VersionsSet(database.trace, |old(database.trace)|, e, inputs.fetched.value, inputs.versions)
      ensures r.Ok? ==>
                && At(e, message, Committed(scanResultId.value, inputs.fetched.value.latest))
                && Finished(message.task, message.name, scanResultId.value, inputs.fetched.value.latest,
                            inputs.analysed.value)
      ensures r.Err? ==> At(e, message, Raised(r.error.retryable))
      ensures r.Err? && scanResultId.None? ==> database.tables == old(database.tables)
      ensures r.Err? && scanResultId.Some? ==>
                Handled(found, e, message, scanResultId.value, r.error, inputs.claim.RollsBack?, inputs.persists,
                        inputs.now)
      ensures old(database.trace) <= database.trace
    {
      hide Database.Valid, LeaveExecAlone, VersionsSet, QueuedFor, Finished, ScanFailed;
      var scan, latestVersion;
      scan, latestVersion, r := TryScan(e, message, inputs, others);
      scanResultId, found := scan, database.state;
      if r.Err? && scan.Some? {
        ghost var soFar := database.trace;
        PauseExec(database, others(2), e);
        RowsStay(database, e);
        ValidIsReachable(database);
        found := database.state;
        MarkScanFailed(e, message, scan.value, r.error.message, r.error.retryable, inputs.persists, inputs.now);
        if inputs.refused.None? && inputs.claim.Commits? && inputs.fetched.Ok? && !inputs.versions.RollsBack? {
          VersionsStaySet(soFar, database.trace, |old(database.trace)|, |old(database.trace)|, e, inputs.fetched.value,
                          inputs.versions);
        }
      }
    }
  }
}
