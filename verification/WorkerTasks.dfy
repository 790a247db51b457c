/**
 The Celery task `scan_package` of app/worker/tasks.py: job bookkeeping around ScanPackageUseCase, and its retries.
 */
module WorkerTasks {
  import opened Wrappers
  import opened Scoring
  import opened Tables
  import opened Transactions
  import opened Lifecycle
  import opened UnitOfWork
  import opened UseCases

  // ---------- which exceptions are retried

  /** The exceptions of app/core/exceptions.py a scan can end in, and everything else. */
  datatype ExceptionClass =
    | NpmRegistry | NpmPackageNotFound | NpmRegistryTimeout | NpmRegistryMalformedResponse
    | TarballDownload | TarballDownloadTimeout | TarballSizeLimitExceeded | TarballIntegrity
    | TarballExtract | TarballUnsafeMember | TarballMalformedArchive | TarballExtractionLimitExceeded
    | ScannerLimitExceeded | OtherExceptionClass

  function Base(c: ExceptionClass): Option<ExceptionClass> {
    match c
    case NpmPackageNotFound => Some(NpmRegistry)
    case NpmRegistryTimeout => Some(NpmRegistry)
    case NpmRegistryMalformedResponse => Some(NpmRegistry)
    case TarballDownloadTimeout => Some(TarballDownload)
    case TarballSizeLimitExceeded => Some(TarballDownload)
    case TarballIntegrity => Some(TarballDownload)
    case TarballUnsafeMember => Some(TarballExtract)
    case TarballMalformedArchive => Some(TarballExtract)
    case TarballExtractionLimitExceeded => Some(TarballExtract)
    case _ => None
  }

  /** isinstance, in a hierarchy two levels deep */
  predicate IsA(c: ExceptionClass, other: ExceptionClass) { c == other || Base(c) == Some(other) }

  const AUTORETRY_FOR: set<ExceptionClass> := {NpmRegistryTimeout, TarballDownload}
  const DONT_AUTORETRY_FOR: set<ExceptionClass> := {
    NpmPackageNotFound, NpmRegistryMalformedResponse, ScannerLimitExceeded, TarballExtract, TarballIntegrity,
    TarballSizeLimitExceeded}

  /** Celery tries `dont_autoretry_for` first. */
  predicate IsRetried(c: ExceptionClass) {
    && (forall d :: d in DONT_AUTORETRY_FOR ==> !IsA(c, d))
    && (exists a :: a in AUTORETRY_FOR && IsA(c, a))
  }

  /** Of the whole hierarchy, only timeouts and failed transfers are retried. */
  lemma RetriedExactly(c: ExceptionClass)
    ensures IsRetried(c) <==> c == NpmRegistryTimeout || c == TarballDownload || c == TarballDownloadTimeout
  {
  }

  /** What becomes of the job's own blocks and of a retry message. */
  datatype TaskInputs = TaskInputs(starts: bool, completes: bool, recordsFailure: bool, republishes: bool,
    scan: ScanInputs, now: Time)

  predicate JobStarted(job: Job) { job.status == Running || job.status == Completed }

  function NewJob(message: Message): Job {
    Job(ScanPackageJob, Some(message.name), message.reason, Queued, None, None, None)
  }

  lemma JobMarks(job: Job, now: Time)
    ensures JobStarted(RunningJob(job, now))
  {
    assert job.status.Queued? || job.status.Running? || job.status.Completed? || job.status.Failed?;
  }

  /** The step ends execution e, leaving the tables and the final transactions as given. */
  ghost predicate Ends(s: State, step: Step, e: nat, db: Db) {
    Enabled(s, step) && Next(s, step).db == db && e !in Next(s, step).execs
    && Next(s, step).hist.finals == s.hist.finals
  }

  lemma StartMoves(s: State, e: nat, now: Time)
    requires e in s.execs && s.execs[e].stage.Delivered?
    ensures var m := s.execs[e].message;
            Moves(s, StartJob(e, now), e, Started,
                  OrRollback(s.db, StartJobTx(s.db, m.task, m.name, m.reason, now)), s.hist.finals)
    ensures Ends(s, StartJobFails(e), e, s.db)
  {
    hide StartJobTx;
  }

  lemma CompleteEnds(s: State, e: nat, ok: bool, now: Time)
    requires e in s.execs && s.execs[e].stage.Committed?
    ensures Ends(s, CompleteJob(e, ok, now), e,
                 if ok then OrRollback(s.db, MarkJobCompleted(s.db, s.execs[e].message.task, now)) else s.db)
  {
    hide MarkJobCompleted;
  }

  lemma FailMoves(s: State, e: nat, ok: bool, text: string, now: Time)
    requires e in s.execs && s.execs[e].stage.Raised?
    ensures Moves(s, FailJob(e, ok, text, now), e, Reraised(ok && s.execs[e].stage.retryable),
                  if ok then OrRollback(s.db, MarkJobFailed(s.db, s.execs[e].message.task, text, now)) else s.db,
                  s.hist.finals)
  {
    hide MarkJobFailed;
  }

  /**
   Acknowledging; the message comes back, one retry further, if the exception allows a retry and the broker takes it.
   */
  lemma FinishEnds(s: State, e: nat, m: nat, republished: bool)
    requires e in s.execs && s.execs[e].stage.Reraised? && m !in s.queue
    ensures Ends(s, Finish(e, m, republished), e, s.db)
    ensures var msg, s' := s.execs[e].message, Next(s, Finish(e, m, republished));
            if s.execs[e].stage.retryable && msg.retries < 3 && republished
            then m in s'.queue && s'.queue[m] == msg.(retries := msg.retries + 1) else s'.queue == s.queue
  {
  }

  class Worker {
    const database: Database

    constructor (database: Database)
      ensures this.database == database
    {
      this.database := database;
    }

    ghost predicate At(e: nat, message: Message, stage: Stage)
      reads database
    {
      database.Valid() && e in database.state.execs && database.state.execs[e] == Exec(message, stage)
    }

    ghost predicate Gone(e: nat)
      reads database
    {
      database.Valid() && e !in database.state.execs
    }

    /** The message waits again, counted one retry further. */
    ghost predicate Requeued(message: Message)
      reads database
    {
      message.retries < 3
      && exists m :: m in database.state.queue && database.state.queue[m] == message.(retries := message.retries + 1)
    }

    /** The job's row is as given and everything else as it was. */
    ghost predicate JobWritten(before: Db, after: Db, task: TaskId, job: Job) {
      after == before.(jobs := before.jobs[task := job])
    }

    method MarkQueueJobRunning(e: nat, message: Message, commits: bool, now: Time)
      requires At(e, message, Delivered)
      modifies database
      ensures if commits then At(e, message, Started) else Gone(e)
      ensures commits ==> message.task in database.tables.jobs && JobStarted(database.tables.jobs[message.task])
      ensures commits ==>
                var before := old(database.tables);
                var job := if message.task in before.jobs then before.jobs[message.task] else NewJob(message);
                JobWritten(before, database.tables, message.task,
                           if job.status == Running || job.status == Completed then job
                           else job.(status := Running, startedAt := Some(now), error := None, finishedAt := None))
      ensures !commits ==> database.tables == old(database.tables)
      ensures database.trace == old(database.trace) + [if commits then StartJob(e, now) else StartJobFails(e)]
    {
      hide ValidRun, Run, Next, Enabled;
      ghost var s := database.state;
      var unit := new SqlAlchemyRepositoryUnitOfWork(database);
      var repository := unit.Enter();
      var marked := repository.MarkQueueJobRunning(message.task, now);
      if marked.Err? {
        repository.CreateQueueJob(message.task, ScanPackageJob, Some(message.name), message.reason);
        marked := repository.MarkQueueJobRunning(message.task, now);
      }
      assert message.task in unit.session.jobs && JobStarted(unit.session.jobs[message.task]) by {
        JobMarks(if message.task in s.db.jobs then s.db.jobs[message.task] else NewJob(message), now);
      }
      StartMoves(s, e, now);
      unit.Exit(!commits, Some(if commits then StartJob(e, now) else StartJobFails(e)));
    }

    method MarkQueueJobCompleted(e: nat, message: Message, scan: ScanId, latest: string, commits: bool,
                                 now: Time)
      returns (done: bool)
      requires At(e, message, Committed(scan, latest))
      modifies database
      ensures Gone(e) && database.state.hist.finals == old(database.state.hist.finals)
      ensures done <==> commits
      ensures commits ==>
                message.task in old(database.tables.jobs)
                && var job := old(database.tables.jobs)[message.task];
                JobWritten(old(database.tables), database.tables, message.task,
                           if job.status == Completed || job.status == Failed then job
                           else job.(status := Completed, error := None, finishedAt := Some(now)))
      ensures !commits ==> database.tables == old(database.tables)
      ensures database.trace == old(database.trace) + [CompleteJob(e, commits, now)]
    {
      RowsStay(database, e);
      hide ValidRun, Run, Next, Enabled;
      ghost var s := database.state;
      var unit := new SqlAlchemyRepositoryUnitOfWork(database);
      var repository := unit.Enter();
      var marked := repository.MarkQueueJobCompleted(message.task, now);
      done := commits && marked.Ok?;
      CompleteEnds(s, e, done, now);
      unit.Exit(!done, Some(CompleteJob(e, done, now)));
    }

    /** If recording the failure fails, that exception replaces the one that would have been retried. */
    method MarkQueueJobFailed(e: nat, message: Message, text: string, ghost retryable: bool, commits: bool,
                              now: Time)
      returns (done: bool)
      requires At(e, message, Raised(retryable))
      modifies database
      ensures At(e, message, Reraised(commits && retryable))
      ensures done <==> commits
      ensures commits ==>
                message.task in old(database.tables.jobs)
                && var job := old(database.tables.jobs)[message.task];
                JobWritten(old(database.tables), database.tables, message.task,
                           if job.status == Completed || job.status == Failed then job
                           else job.(status := Failed, error := Some(text), finishedAt := Some(now)))
      ensures !commits ==> database.tables == old(database.tables)
      ensures database.trace == old(database.trace) + [FailJob(e, commits, text, now)]
    {
      RowsStay(database, e);
      hide ValidRun, Run, Next, Enabled;
      ghost var s := database.state;
      var unit := new SqlAlchemyRepositoryUnitOfWork(database);
      var repository := unit.Enter();
      var marked := repository.MarkQueueJobFailed(message.task, text, now);
      done := commits && marked.Ok?;
      FailMoves(s, e, done, text, now);
      unit.Exit(!done, Some(FailJob(e, done, text, now)));
    }

    method Acknowledge(e: nat, message: Message, retryable: bool, republishes: bool)
      requires At(e, message, Reraised(retryable))
      modifies database
      ensures Gone(e)
      ensures if retryable && message.retries < 3 && republishes then Requeued(message)
              else database.state.queue == old(database.state.queue)
      ensures old(database.trace) <= database.trace
    {
      hide ValidRun, Run, Next, Enabled;
      var m := NextId(database.state.queue.Keys);
      FinishEnds(database.state, e, m, republishes);
      database.Advance(Finish(e, m, republishes), database.tables);
    }

    /** One of these steps ends the bookkeeping of execution e, after the first `from` steps. */
    ghost predicate Booked(e: nat, inputs: TaskInputs, from: nat)
      reads database
    {
      if !inputs.starts then Made(database.trace, from, StartJobFails(e))
      else match FirstFailure(inputs.scan)
           case None => Made(database.trace, from, CompleteJob(e, inputs.completes, inputs.now))
           case Some(exc) => Made(database.trace, from, FailJob(e, inputs.recordsFailure, exc.message, inputs.now))
    }

    /**
     One execution of a delivered message, others running in between. It ends with the execution gone. It completes
     exactly if every block and piece of work goes through, after a final transaction under its task id, and it
     retries exactly if the first failure allows one, is recorded, and a try is left that the broker takes.
     */
    method ScanPackage(e: nat, message: Message, inputs: TaskInputs, others: nat -> Others)
      returns (completed: bool, retried: bool)
      requires At(e, message, Delivered) && (inputs.scan.fetched.Ok? ==> WellFormed(inputs.scan.fetched.value))
      requires forall k :: LeaveExecAlone(others(k), e)
      modifies database
      ensures Gone(e)
      ensures completed <==>
              && inputs.starts && inputs.completes
              && inputs.scan.refused.None? && inputs.scan.claim.Commits? && inputs.scan.fetched.Ok?
              && inputs.scan.versions.Commits? && inputs.scan.analysed.Ok? && inputs.scan.final.Commits?
      ensures retried <==>
              && inputs.starts && FirstFailure(inputs.scan).Some? && FirstFailure(inputs.scan).value.retryable
              && inputs.recordsFailure && message.retries < 3 && inputs.republishes
      ensures completed ==>
                exists sid :: Final(message.task, sid, inputs.scan.fetched.value.latest) in database.state.hist.finals
      ensures completed ==> message.task in database.tables.jobs
                            && database.tables.jobs[message.task].status in {Completed, Failed}
      ensures retried ==> Requeued(message)
      ensures Booked(e, inputs, |old(database.trace)|)
    {
      hide Database.Valid, LeaveExecAlone, FirstFailure, FindingsOf, ScanPackageUseCase.VersionsSet,
        ScanPackageUseCase.QueuedFor, ScanPackageUseCase.Handled, CalculateScore, CalculateRiskLevel;
      ghost var last := |database.trace|;
      completed, retried := false, false;
      MarkQueueJobRunning(e, message, inputs.starts, inputs.now);
      if !inputs.starts {
        assert database.trace[last] == StartJobFails(e);
        return;
      }
      PauseExec(database, others(3), e);
      var useCase := new ScanPackageUseCase(database);
      var r, _, _ := useCase.Execute(e, message, inputs.scan, others);
      PauseExec(database, others(4), e);
      last := |database.trace|;
      match r
      case Ok(_) =>
        var latest := inputs.scan.fetched.value.latest;
        completed := MarkQueueJobCompleted(e, message, database.state.execs[e].stage.scan,
                                           latest, inputs.completes, inputs.now);
        assert database.trace[last] == CompleteJob(e, inputs.completes, inputs.now);
      case Err(exc) =>
        var recorded := MarkQueueJobFailed(e, message, exc.message, exc.retryable, inputs.recordsFailure, inputs.now);
        assert database.trace[last] == FailJob(e, inputs.recordsFailure, exc.message, inputs.now);
        PauseExec(database, others(5), e);
        Acknowledge(e, message, recorded && exc.retryable, inputs.republishes);
        retried := recorded && exc.retryable && message.retries < 3 && inputs.republishes;
    }
  }
}
