/** The queue_jobs table under duplicate deliveries, retries and late failures. */
module Jobs {
  import opened Wrappers
  import opened Tables
  import opened Transactions
  import opened Lifecycle
  import opened Ownership
  import opened ScanRows
  import opened Strikes
  import opened Markers

  type JobTable = map<TaskId, Job>

  // ---------- how a job row may change

  /** Completed is absorbing, a failed job can only be started again, and nothing goes back to queued. */
  predicate JobForward(before: Job, after: Job, completing: bool) {
    && after.jobType == before.jobType && after.packageName == before.packageName && after.reason == before.reason
    && (before.status == Completed ==> after == before)
    && (after.status == Queued ==> after == before)
    && (before.status == Failed ==> after.status in {Failed, Running})
    && (after.status == Completed && before.status != Completed ==> completing)
  }

  /** Rows only appear, as queued scan jobs, or move forward; `completing` is the only task that may complete. */
  ghost predicate JobsForward(jobs: JobTable, jobs': JobTable, completing: set<TaskId>) {
    && (forall t :: t in jobs ==> t in jobs' && JobForward(jobs[t], jobs'[t], t in completing))
    && (forall t :: t in jobs' && t !in jobs ==>
          jobs'[t].jobType == ScanPackageJob && jobs'[t].status in {Queued, Running})
  }

  function Completing(s: State, step: Step): set<TaskId> {
    if step.CompleteJob? && step.e in s.execs then {s.execs[step.e].message.task} else {}
  }

  lemma JobWritten(jobs: JobTable, task: TaskId, job: Job, completing: set<TaskId>)
    requires task in jobs ==> JobForward(jobs[task], job, task in completing)
    requires task !in jobs ==> job.jobType == ScanPackageJob && job.status in {Queued, Running}
    ensures JobsForward(jobs, jobs[task := job], completing)
  {
  }

  lemma NoJobWritten(jobs: JobTable, completing: set<TaskId>)
    ensures JobsForward(jobs, jobs, completing)
  {
  }

  predicate WritesJobs(step: Step) {
    step.Enqueue? || step.PublishFails? || step.StartJob? || step.FailJob? || step.CompleteJob?
  }

  lemma OtherStepsKeepJobs(s: State, step: Step)
    requires Enabled(s, step) && !WritesJobs(step)
    ensures Next(s, step).db.jobs == s.db.jobs
  {
    hide WorkedOn, StartJobTx, CompensateTx, ClaimTx, VersionsTx, FinalTx, EnqueueTx;
  }

  lemma EnqueuedJob(s: State, q: nat, task: TaskId, name: string, reason: string, pid: PackageId, sid: ScanId,
                    now: Time)
    requires CanEnqueue(s, q, task, pid, sid)
    ensures OnEnqueue(s, q, task, name, reason, pid, sid, now).db.jobs
            == s.db.jobs[task := Job(ScanPackageJob, Some(name), reason, Queued, None, None, None)]
  {
  }

  /** No step resets a job row, moves a completed job, or completes a job other than the one it finishes. */
  lemma JobsMoveForward(s: State, step: Step)
    requires Inv(s) && Enabled(s, step)
    ensures JobsForward(s.db.jobs, Next(s, step).db.jobs, Completing(s, step))
  {
    hide Inv, JobsForward, WorkedOn;
    match step
    case Enqueue(q, task, name, reason, pid, sid, now) =>
      EnqueuedJob(s, q, task, name, reason, pid, sid, now);
      hide OnEnqueue;
      JobWritten(s.db.jobs, task, Next(s, step).db.jobs[task], {});
    case PublishFails(q, compensated, now) =>
      EnqueuerFacts(s, q);
      var task := s.enqueuers[q].task;
      CompensateTxWrites(s.db, task, s.enqueuers[q].scan, now);
      hide CompensateTx;
      JobWritten(s.db.jobs, task, FailedJob(s.db.jobs[task], UNAVAILABLE, now), {});
      NoJobWritten(s.db.jobs, {});
    case StartJob(e, now) =>
      Facts(s, e);
      var m := s.execs[e].message;
      StartJobTxWrites(s.db, m.task, m.name, m.reason, now);
      hide StartJobTx;
      JobWritten(s.db.jobs, m.task, RunningJob(s.db.jobs[m.task], now), {});
    case FailJob(e, ok, message, now) =>
      Facts(s, e);
      var task := s.execs[e].message.task;
      JobWritten(s.db.jobs, task, FailedJob(s.db.jobs[task], message, now), {});
      NoJobWritten(s.db.jobs, {});
    case CompleteJob(e, ok, now) =>
      Facts(s, e);
      var task := s.execs[e].message.task;
      JobWritten(s.db.jobs, task, CompletedJob(s.db.jobs[task], now), {task});
      NoJobWritten(s.db.jobs, {task});
    case _ =>
      OtherStepsKeepJobs(s, step);
      NoJobWritten(s.db.jobs, Completing(s, step));
  }

  /** The first transaction of an execution always ends with the job running, or completed by another delivery. */
  lemma StartedJobsRun(s: State, e: nat, now: Time)
    requires e in s.execs && s.execs[e].stage.Delivered?
    ensures var db := OnStartJob(s, e, now).db; var task := s.execs[e].message.task;
            && task in db.jobs && db.jobs[task].status in {Running, Completed}
            && (db.jobs[task].status == Completed <==> task in s.db.jobs && s.db.jobs[task].status == Completed)
  {
    var m := s.execs[e].message;
    if m.task in s.db.jobs {
      StartJobTxWrites(s.db, m.task, m.name, m.reason, now);
      var job := RunningJob(s.db.jobs[m.task], now);
      assert job.status == Running || job.status == Completed;
    }
  }

  /** Over any run a completed job row never changes again. */
  lemma {:induction false} CompletedIsAbsorbing(s: State, steps: seq<Step>, task: TaskId)
    requires Inv(s) && ValidRun(s, steps) && task in s.db.jobs && s.db.jobs[task].status == Completed
    ensures task in Run(s, steps).db.jobs && Run(s, steps).db.jobs[task] == s.db.jobs[task]
    decreases |steps|
  {
    hide Inv, Next, Enabled;
    if steps != [] {
      InvNext(s, steps[0]);
      JobsMoveForward(s, steps[0]);
      CompletedIsAbsorbing(Next(s, steps[0]), steps[1..], task);
    }
  }

  // ---------- jobs and the scans done under them

  /** Everything in flight carries the package name of its job. */
  ghost predicate NamesAgree(jobs: JobTable, enqueuers: map<nat, Enqueuer>, queue: map<nat, Message>, execs: Execs) {
    && (forall q :: q in enqueuers ==>
          enqueuers[q].task in jobs && jobs[enqueuers[q].task].packageName == Some(enqueuers[q].name))
    && (forall m :: m in queue ==> queue[m].task in jobs && jobs[queue[m].task].packageName == Some(queue[m].name))
    && (forall e :: e in execs ==>
          execs[e].message.task in jobs && jobs[execs[e].message.task].packageName == Some(execs[e].message.name))
  }

  /** Final transactions wrote scans of the package their job names. */
  ghost predicate FinalsMatch(jobs: JobTable, finals: set<Final>, index: Index, scans: Scans) {
    forall f :: f in finals ==>
      && f.task in jobs && jobs[f.task].packageName.Some?
      && RowOf(index, scans, jobs[f.task].packageName.value, f.scan)
  }

  ghost predicate CompletedHaveFinals(jobs: JobTable, finals: set<Final>) {
    forall t :: t in jobs && jobs[t].status == Completed && jobs[t].jobType == ScanPackageJob ==>
      exists f :: f in finals && f.task == t
  }

  ghost predicate JobsOk(s: State) {
    && NamesAgree(s.db.jobs, s.enqueuers, s.queue, s.execs)
    && FinalsMatch(s.db.jobs, s.hist.finals, s.db.packageIds, s.db.scans)
    && CompletedHaveFinals(s.db.jobs, s.hist.finals)
  }

  /** Nothing new is in flight: every message comes from one already there. */
  lemma NamesKept(jobs: JobTable, enqueuers: map<nat, Enqueuer>, queue: map<nat, Message>, execs: Execs,
                  jobs': JobTable, enqueuers': map<nat, Enqueuer>, queue': map<nat, Message>, execs': Execs,
                  completing: set<TaskId>)
    requires NamesAgree(jobs, enqueuers, queue, execs) && JobsForward(jobs, jobs', completing)
    requires forall q :: q in enqueuers' ==> q in enqueuers && enqueuers'[q] == enqueuers[q]
    requires forall m :: m in queue' ==>
               || (m in queue && queue'[m] == queue[m])
               || (exists q :: (
                     && q in enqueuers && queue'[m].task == enqueuers[q].task && queue'[m].name == enqueuers[q].name))
               || (exists e :: (
                     && e in execs && queue'[m].task == execs[e].message.task
                     && queue'[m].name == execs[e].message.name))
    requires forall e :: e in execs' ==>
               || (e in execs && execs'[e].message == execs[e].message)
               || (exists m :: m in queue && execs'[e].message == queue[m])
    ensures NamesAgree(jobs', enqueuers', queue', execs')
  {
  }

  lemma NamesOnEnqueue(s: State, q: nat, task: TaskId, name: string, reason: string, pid: PackageId, sid: ScanId,
                       now: Time)
    requires CanEnqueue(s, q, task, pid, sid) && NamesAgree(s.db.jobs, s.enqueuers, s.queue, s.execs)
    ensures var s' := OnEnqueue(s, q, task, name, reason, pid, sid, now);
            NamesAgree(s'.db.jobs, s'.enqueuers, s'.queue, s'.execs)
  {
    EnqueuedJob(s, q, task, name, reason, pid, sid, now);
  }

  lemma NamesNext(s: State, step: Step)
    requires Inv(s) && Enabled(s, step) && NamesAgree(s.db.jobs, s.enqueuers, s.queue, s.execs)
    ensures var s' := Next(s, step); NamesAgree(s'.db.jobs, s'.enqueuers, s'.queue, s'.execs)
  {
    hide Inv, NamesAgree, JobsForward, WorkedOn;
    if step.Enqueue? {
      NamesOnEnqueue(s, step.q, step.task, step.name, step.reason, step.pid, step.sid, step.now);
    } else {
      hide StartJobTx, CompensateTx, ClaimTx, VersionsTx, FinalTx, EnqueueTx;
      JobsMoveForward(s, step);
      var s' := Next(s, step);
      NamesKept(s.db.jobs, s.enqueuers, s.queue, s.execs, s'.db.jobs, s'.enqueuers, s'.queue, s'.execs,
                Completing(s, step));
    }
  }

  lemma FinalsKeptMatching(jobs: JobTable, finals: set<Final>, index: Index, scans: Scans,
                           jobs': JobTable, index': Index, scans': Scans, completing: set<TaskId>, allowed: set<Write>)
    requires FinalsMatch(jobs, finals, index, scans) && JobsForward(jobs, jobs', completing)
    requires Extends(index, index') && OneWrite(scans, scans', allowed)
    ensures FinalsMatch(jobs', finals, index', scans')
  {
    forall f | f in finals
      ensures f.scan in scans' && scans'[f.scan].packageId == scans[f.scan].packageId
    {
      WriteMovesForward(scans, scans', allowed, f.scan);
    }
  }

  lemma EnqueueIndexGrows(db: Db, task: TaskId, name: string, reason: string, pid: PackageId, sid: ScanId, now: Time)
    ensures Extends(db.packageIds, EnqueueTx(db, task, name, reason, pid, sid, now).packageIds)
  {
  }

  lemma ClaimIndexGrows(db: Db, name: string, pid: PackageId, sid: ScanId, now: Time)
    ensures Extends(db.packageIds, ClaimTx(db, name, pid, sid, now).db.packageIds)
  {
    hide NextQueued;
  }

  lemma IndexGrows(s: State, step: Step)
    requires Enabled(s, step)
    ensures Extends(s.db.packageIds, Next(s, step).db.packageIds)
  {
    hide WorkedOn, FreshIds, StartJobTx, CompensateTx, VersionsTx, FinalTx, EnqueueTx, ClaimTx;
    match step
    case Enqueue(q, task, name, reason, pid, sid, now) => EnqueueIndexGrows(s.db, task, name, reason, pid, sid, now);
    case ClaimRow(e, pid, sid, now, _) => ClaimIndexGrows(s.db, s.execs[e].message.name, pid, sid, now);
    case _ =>
  }

  lemma OnlyFinaliseAddsFinals(s: State, step: Step)
    requires Enabled(s, step) && !step.Finalise?
    ensures Next(s, step).hist.finals == s.hist.finals
  {
    hide WorkedOn, StartJobTx, CompensateTx, ClaimTx, VersionsTx, FinalTx, EnqueueTx;
  }

  lemma FinalAddedMatches(jobs: JobTable, finals: set<Final>, index: Index, scans: Scans, f: Final, name: string)
    requires FinalsMatch(jobs, finals, index, scans)
    requires f.task in jobs && jobs[f.task].packageName == Some(name) && RowOf(index, scans, name, f.scan)
    ensures FinalsMatch(jobs, finals + {f}, index, scans)
  {
  }

  lemma NameOfExec(s: State, e: nat)
    requires NamesAgree(s.db.jobs, s.enqueuers, s.queue, s.execs) && e in s.execs
    ensures s.execs[e].message.task in s.db.jobs
    ensures s.db.jobs[s.execs[e].message.task].packageName == Some(s.execs[e].message.name)
  {
  }

  lemma FinalsMatchNext(s: State, step: Step)
    requires Inv(s) && Enabled(s, step) && JobsOk(s)
    ensures var s' := Next(s, step); FinalsMatch(s'.db.jobs, s'.hist.finals, s'.db.packageIds, s'.db.scans)
  {
    hide Inv, NamesAgree, CompletedHaveFinals, FinalsMatch, JobsForward, OneWrite, WorkedOn;
    JobsMoveForward(s, step);
    WritesAreLegal(s, step);
    IndexGrows(s, step);
    var s' := Next(s, step);
    FinalsKeptMatching(s.db.jobs, s.hist.finals, s.db.packageIds, s.db.scans,
                       s'.db.jobs, s'.db.packageIds, s'.db.scans, Completing(s, step), WritesOf(step));
    if step.Finalise? {
      var v := s.execs[step.e].stage;
      Facts(s, step.e);
      NameOfExec(s, step.e);
      RowsMoveForward(s, step, v.scan);
      hide FinalTx;
      FinalAddedMatches(s'.db.jobs, s.hist.finals, s'.db.packageIds, s'.db.scans,
                        Final(s.execs[step.e].message.task, v.scan, v.latest), s.execs[step.e].message.name);
    } else {
      OnlyFinaliseAddsFinals(s, step);
    }
  }

  lemma CompletedKept(jobs: JobTable, finals: set<Final>, jobs': JobTable, finals': set<Final>, completing: set<TaskId>)
    requires CompletedHaveFinals(jobs, finals) && JobsForward(jobs, jobs', completing) && finals <= finals'
    requires forall t :: t in completing ==> exists f :: f in finals && f.task == t
    ensures CompletedHaveFinals(jobs', finals')
  {
    forall t | t in jobs' && jobs'[t].status == Completed && jobs'[t].jobType == ScanPackageJob
      ensures exists f :: f in finals' && f.task == t
    {
      var f :| f in finals && f.task == t;
      assert f in finals';
    }
  }

  lemma FinalOfCommitted(s: State, e: nat)
    requires Known(s) && e in s.execs && s.execs[e].stage.Committed?
    ensures exists f :: f in s.hist.finals && f.task == s.execs[e].message.task
  {
    assert Final(s.execs[e].message.task, s.execs[e].stage.scan, s.execs[e].stage.latest) in s.hist.finals;
  }

  lemma FinalsGrow(s: State, step: Step)
    requires Enabled(s, step)
    ensures s.hist.finals <= Next(s, step).hist.finals
  {
    hide WorkedOn, StartJobTx, CompensateTx, ClaimTx, VersionsTx, FinalTx, EnqueueTx;
  }

  lemma JobsNext(s: State, step: Step)
    requires Inv(s) && Known(s) && Enabled(s, step) && JobsOk(s)
    ensures JobsOk(Next(s, step))
  {
    hide Inv, Known, Enabled, NamesAgree, FinalsMatch, CompletedHaveFinals, JobsForward;
    NamesNext(s, step);
    FinalsMatchNext(s, step);
    JobsMoveForward(s, step);
    FinalsGrow(s, step);
    if step.CompleteJob? && step.e in s.execs {
      CommittedStage(s, step);
      FinalOfCommitted(s, step.e);
    }
    hide Next;
    CompletedKept(s.db.jobs, s.hist.finals, Next(s, step).db.jobs, Next(s, step).hist.finals, Completing(s, step));
  }

  lemma CommittedStage(s: State, step: Step)
    requires Enabled(s, step) && step.CompleteJob?
    ensures step.e in s.execs && s.execs[step.e].stage.Committed?
  {
  }

  lemma {:induction false} JobsRun(s: State, steps: seq<Step>)
    requires Inv(s) && Known(s) && JobsOk(s) && ValidRun(s, steps)
    ensures JobsOk(Run(s, steps))
    decreases |steps|
  {
    hide Inv, Known, JobsOk, Next, Enabled;
    if steps != [] {
      InvNext(s, steps[0]);
      KnownNext(s, steps[0]);
      JobsNext(s, steps[0]);
      JobsRun(Next(s, steps[0]), steps[1..]);
    }
  }

  lemma JobsReachable(s: State)
    requires Reachable(s)
    ensures JobsOk(s)
  {
    var steps :| ValidRun(Init, steps) && Run(Init, steps) == s;
    InvStart();
    hide Inv, Next, Enabled, ValidRun;
    JobsRun(Init, steps);
  }

  /**
   A completed scan job has a final transaction under its own task id, on a scan of the package the job names;
   that scan is completed unless it was struck.
   */
  lemma CompletedJobHasScan(s: State, task: TaskId)
    requires Reachable(s) && task in s.db.jobs
    requires s.db.jobs[task].status == Completed && s.db.jobs[task].jobType == ScanPackageJob
    ensures exists f :: (
        && f in s.hist.finals && f.task == task && s.db.jobs[task].packageName.Some?
        && RowOf(s.db.packageIds, s.db.scans, s.db.jobs[task].packageName.value, f.scan)
        && (f.scan in s.hist.struck ||
            (s.db.scans[f.scan].status == Completed && s.db.scans[f.scan].latestVersion == Some(f.latest))))
  {
    JobsReachable(s);
    KnownReachable(s);
    hide Inv;
    var f :| f in s.hist.finals && f.task == task;
  }

  /** Some execution of the task committed a final transaction that completed a scan of the package the job names. */
  ghost predicate ScanCompletedUnder(s: State, task: TaskId) {
    exists f :: (
      && f in s.hist.finals && f.task == task && task in s.db.jobs && s.db.jobs[task].packageName.Some?
      && RowOf(s.db.packageIds, s.db.scans, s.db.jobs[task].packageName.value, f.scan)
      && s.db.scans[f.scan].status == Completed && s.db.scans[f.scan].latestVersion == Some(f.latest))
  }

  /** A final transaction under the task met its row still running. */
  ghost predicate FinishedUnstruck(s: State, task: TaskId) {
    exists f :: f in s.hist.finals && f.task == task && f.scan !in s.hist.struck
  }

  /** A completed scan job has a completed scan exactly if one of its final transactions was not on a struck row. */
  lemma CompletedJobExact(s: State, task: TaskId)
    requires Reachable(s) && task in s.db.jobs
    requires s.db.jobs[task].status == Completed && s.db.jobs[task].jobType == ScanPackageJob
    ensures ScanCompletedUnder(s, task) <==> FinishedUnstruck(s, task)
  {
    JobsReachable(s);
    KnownReachable(s);
    hide Inv, Reachable;
    if FinishedUnstruck(s, task) {
      var f :| f in s.hist.finals && f.task == task && f.scan !in s.hist.struck;
      assert s.db.scans[f.scan].status == Completed;
    }
  }

  /** In a run without strikes every completed scan job has its completed scan. */
  lemma CompletedJobHasCompletedScan(steps: seq<Step>, task: TaskId)
    requires ValidRun(Init, steps) && StrikeFree(Init, steps) && task in Run(Init, steps).db.jobs
    requires var job := Run(Init, steps).db.jobs[task]; job.status == Completed && job.jobType == ScanPackageJob
    ensures ScanCompletedUnder(Run(Init, steps), task)
  {
    StruckIffStrike(Init, steps);
    var s := Run(Init, steps);
    assert Reachable(s);
    CompletedJobHasScan(s, task);
    CompletedJobExact(s, task);
    hide ValidRun, StrikeFree, Run, Reachable, ScanCompletedUnder;
    var f :| f in s.hist.finals && f.task == task;
    assert FinishedUnstruck(s, task);
  }
}
