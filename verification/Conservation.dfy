/** How many rows are queued: an exact count, for every package, in every reachable state. */
module Conservation {
  import opened Wrappers
  import opened Scoring
  import opened Tables
  import opened Transactions
  import opened Lifecycle
  import opened Ownership
  import opened ScanRows
  import opened Jobs

  /** Q: rows queued for the package of that name. */
  ghost function QueuedRows(index: Index, scans: Scans, name: string): nat {
    if name in index then |QueuedScans(scans, index[name])| else 0
  }

  /** I: enqueues that committed and have not published yet. */
  ghost function InFlight(enqueuers: map<nat, Enqueuer>, name: string): nat {
    |EnqueuersOf(enqueuers, name)|
  }

  ghost function EnqueuersOf(enqueuers: map<nat, Enqueuer>, name: string): set<nat> {
    set q | q in enqueuers && enqueuers[q].name == name
  }

  ghost function UnclaimedTasks(published: map<TaskId, string>, claimed: set<TaskId>, name: string): set<TaskId> {
    set t | t in published && published[t] == name && t !in claimed
  }

  /** M: published messages of which no execution has passed the claim. */
  ghost function Unclaimed(published: map<TaskId, string>, claimed: set<TaskId>, name: string): nat {
    |UnclaimedTasks(published, claimed, name)|
  }

  /**
   Q = M + F + I - R + N, with F failed publishes, R claims by an execution of a task that had already passed the
   claim, and N claims that found nothing queued; and N never exceeds R.
   */
  ghost predicate Balanced(s: State, name: string) {
    && QueuedRows(s.db.packageIds, s.db.scans, name)
       == Unclaimed(s.hist.published, s.hist.claimed, name) + s.hist.failedPublishes[name]
          + InFlight(s.enqueuers, name) - s.hist.extraClaims[name] + s.hist.fallbacks[name]
    && s.hist.fallbacks[name] <= s.hist.extraClaims[name]
  }

  /** Tasks are fresh when enqueued, and everything delivered was published. */
  ghost predicate TasksTracked(tasks: set<TaskId>, enqueuers: map<nat, Enqueuer>, queue: map<nat, Message>,
                               execs: Execs,
                               published: map<TaskId, string>, claimed: set<TaskId>) {
    && (forall q :: q in enqueuers ==> enqueuers[q].task in tasks && enqueuers[q].task !in published)
    && (forall q, p :: q in enqueuers && p in enqueuers && q != p ==> enqueuers[q].task != enqueuers[p].task)
    && published.Keys <= tasks && claimed <= published.Keys
    && (forall m :: m in queue ==> queue[m].task in published && published[queue[m].task] == queue[m].name)
    && (forall e :: e in execs ==>
          execs[e].message.task in published && published[execs[e].message.task] == execs[e].message.name)
  }

  ghost predicate Tracked(s: State) {
    TasksTracked(s.db.jobs.Keys, s.enqueuers, s.queue, s.execs, s.hist.published, s.hist.claimed)
  }

  // ---------- what a write does to the queued rows

  lemma QueuedUnchanged(scans: Scans, sid: ScanId, row: Scan, pid: PackageId)
    requires sid in scans ==>
               (scans[sid].status == Queued <==> row.status == Queued) && scans[sid].packageId == row.packageId
    requires sid !in scans ==> row.status != Queued
    ensures QueuedScans(scans[sid := row], pid) == QueuedScans(scans, pid)
  {
  }

  lemma QueuedAdded(scans: Scans, sid: ScanId, row: Scan, pid: PackageId)
    requires sid !in scans && row.status == Queued
    ensures |QueuedScans(scans[sid := row], pid)| == |QueuedScans(scans, pid)| + if row.packageId == pid then 1 else 0
  {
    assert QueuedScans(scans[sid := row], pid) == QueuedScans(scans, pid) + if row.packageId == pid then {sid} else {};
  }

  lemma QueuedTaken(scans: Scans, sid: ScanId, row: Scan, pid: PackageId)
    requires sid in scans && scans[sid].status == Queued && row.status != Queued
    requires row.packageId == scans[sid].packageId
    ensures |QueuedScans(scans[sid := row], pid)| == |QueuedScans(scans, pid)| - if row.packageId == pid then 1 else 0
  {
    assert QueuedScans(scans[sid := row], pid) == QueuedScans(scans, pid) - {sid};
  }

  lemma IdsNamePackages(s: State, name: string, n: string)
    requires Inv(s) && name in s.db.packageIds && n in s.db.packageIds
    ensures s.db.packageIds[n] == s.db.packageIds[name] <==> n == name
  {
  }

  lemma NewIdIsUnused(s: State, pid: PackageId, n: string)
    requires Inv(s) && pid !in s.db.packages && n in s.db.packageIds
    ensures s.db.packageIds[n] != pid
  {
  }

  // ---------- and to the other counts

  lemma InFlightAdded(enqueuers: map<nat, Enqueuer>, q: nat, x: Enqueuer, n: string)
    requires q !in enqueuers
    ensures InFlight(enqueuers[q := x], n) == InFlight(enqueuers, n) + if x.name == n then 1 else 0
  {
    assert EnqueuersOf(enqueuers[q := x], n) == EnqueuersOf(enqueuers, n) + if x.name == n then {q} else {};
  }

  lemma InFlightRemoved(enqueuers: map<nat, Enqueuer>, q: nat, n: string)
    requires q in enqueuers
    ensures InFlight(enqueuers - {q}, n) == InFlight(enqueuers, n) - if enqueuers[q].name == n then 1 else 0
  {
    assert EnqueuersOf(enqueuers - {q}, n) == EnqueuersOf(enqueuers, n) - {q};
  }

  lemma PublishedAdded(published: map<TaskId, string>, claimed: set<TaskId>, task: TaskId, name: string, n: string)
    requires task !in published && task !in claimed
    ensures Unclaimed(published[task := name], claimed, n)
            == Unclaimed(published, claimed, n) + if name == n then 1 else 0
  {
    assert UnclaimedTasks(published[task := name], claimed, n)
        == UnclaimedTasks(published, claimed, n) + if name == n then {task} else {};
  }

  lemma ClaimedAdded(published: map<TaskId, string>, claimed: set<TaskId>, task: TaskId, n: string)
    requires task in published
    ensures Unclaimed(published, claimed + {task}, n)
            == Unclaimed(published, claimed, n) - if published[task] == n && task !in claimed then 1 else 0
  {
    assert UnclaimedTasks(published, claimed + {task}, n) == UnclaimedTasks(published, claimed, n) - {task};
  }

  // ---------- the steps that move something

  lemma EnqueueBalances(s: State, q: nat, task: TaskId, name: string, reason: string, pid: PackageId, sid: ScanId,
                        now: Time, n: string)
    requires Inv(s) && Balanced(s, n) && CanEnqueue(s, q, task, pid, sid)
    ensures Balanced(OnEnqueue(s, q, task, name, reason, pid, sid, now), n)
  {
    hide Inv, QueuedScans, InFlight, Unclaimed;
    NothingQueuedForNewPackage(s, pid);
    if n in s.db.packageIds {
      NewIdIsUnused(s, pid, n);
      if name in s.db.packageIds {
        IdsNamePackages(s, name, n);
      }
    }
    var id := PackageIdOf(s.db, name, pid);
    var row := NewScan(id, Queued, now, now);
    QueuedAdded(s.db.scans, sid, row, if n in s.db.packageIds then s.db.packageIds[n] else id);
    InFlightAdded(s.enqueuers, q, Enqueuer(task, name, reason, sid), n);
  }

  lemma PublishBalances(s: State, q: nat, m: nat, n: string)
    requires Tracked(s) && Balanced(s, n) && q in s.enqueuers
    ensures Balanced(OnPublish(s, q, m), n)
  {
    hide QueuedRows, InFlight, Unclaimed;
    InFlightRemoved(s.enqueuers, q, n);
    PublishedAdded(s.hist.published, s.hist.claimed, s.enqueuers[q].task, s.enqueuers[q].name, n);
  }

  lemma PublishFailsBalances(s: State, q: nat, compensated: bool, now: Time, n: string)
    requires Inv(s) && Balanced(s, n) && q in s.enqueuers
    ensures Balanced(OnPublishFails(s, q, compensated, now), n)
  {
    hide Inv, WorkedOn, QueuedScans, InFlight, Unclaimed;
    EnqueuerFacts(s, q);
    var e := s.enqueuers[q];
    CompensateTxWrites(s.db, e.task, e.scan, now);
    hide CompensateTx;
    if n in s.db.packageIds {
      QueuedUnchanged(s.db.scans, e.scan, FailedRow(s.db.scans[e.scan], UNAVAILABLE, now), s.db.packageIds[n]);
    }
    InFlightRemoved(s.enqueuers, q, n);
  }

  lemma PersistBalances(s: State, e: nat, ok: bool, now: Time, n: string)
    requires Inv(s) && Balanced(s, n) && CanPersist(s, e)
    ensures Balanced(OnPersist(s, e, ok, now), n)
  {
    hide Inv, WorkedOn, QueuedScans, InFlight, Unclaimed;
    Facts(s, e);
    var f := s.execs[e].stage;
    if n in s.db.packageIds {
      QueuedUnchanged(s.db.scans, f.scan, FailedRow(s.db.scans[f.scan], f.message, now), s.db.packageIds[n]);
    }
  }

  lemma SetVersionsBalances(s: State, e: nat, fetched: Fetched, id: nat, previousId: nat, raised: Option<string>,
                            n: string)
    requires Inv(s) && Balanced(s, n) && e in s.execs && s.execs[e].stage.Claimed?
    ensures Balanced(OnSetVersions(s, e, fetched, id, previousId, raised), n)
  {
    hide Inv, QueuedScans, InFlight, Unclaimed;
    Facts(s, e);
    var c := s.execs[e].stage;
    VersionsTxWrites(s.db, c.pid, c.scan, fetched, id, previousId);
    hide VersionsTx;
    if n in s.db.packageIds {
      QueuedUnchanged(s.db.scans, c.scan, VersionedRow(s.db.scans[c.scan], fetched.latest, PreviousName(fetched)),
                      s.db.packageIds[n]);
    }
  }

  lemma FinaliseBalances(s: State, e: nat, findings: seq<Finding>, ids: seq<FindingId>, now: Time,
                         raised: Option<string>, n: string)
    requires Inv(s) && Balanced(s, n) && CanFinalise(s, e, findings, ids)
    ensures Balanced(OnFinalise(s, e, findings, ids, now, raised), n)
  {
    hide Inv, QueuedScans, InFlight, Unclaimed, CalculateScore, CalculateRiskLevel;
    Facts(s, e);
    var v := s.execs[e].stage;
    FinalTxWrites(s.db, v.pid, v.scan, v.latest, findings, ids, now);
    hide FinalTx;
    if n in s.db.packageIds {
      var score := CalculateScore(findings);
      QueuedUnchanged(s.db.scans, v.scan, CompletedRow(s.db.scans[v.scan], score, CalculateRiskLevel(score), now),
                      s.db.packageIds[n]);
    }
  }

  lemma ClaimTakesOrCreates(s: State, e: nat, pid: PackageId, sid: ScanId, now: Time)
    requires Inv(s) && CanClaim(s, e, pid, sid)
    ensures var name := s.execs[e].message.name; var c := ClaimTx(s.db, name, pid, sid, now);
            && name in s.db.packageIds && c.db.packageIds == s.db.packageIds
            && (c.fallback <==> |QueuedScans(s.db.scans, s.db.packageIds[name])| == 0)
            && c.scan in c.db.scans && c.db.scans == s.db.scans[c.scan := c.db.scans[c.scan]]
            && c.db.scans[c.scan].status == Running && c.db.scans[c.scan].packageId == s.db.packageIds[name]
            && (if c.fallback then c.scan == sid
                else c.scan in s.db.scans && s.db.scans[c.scan].status == Queued
                     && s.db.scans[c.scan].packageId == s.db.packageIds[name])
  {
    Facts(s, e);
    hide Inv;
  }

  lemma ClaimBalances(s: State, e: nat, pid: PackageId, sid: ScanId, now: Time, raised: Option<string>, n: string)
    requires Inv(s) && Tracked(s) && Balanced(s, n) && CanClaim(s, e, pid, sid)
    ensures Balanced(OnClaim(s, e, pid, sid, now, raised), n)
  {
    hide Inv, QueuedScans, InFlight, Unclaimed;
    var m := s.execs[e].message;
    ClaimTakesOrCreates(s, e, pid, sid, now);
    var c := ClaimTx(s.db, m.name, pid, sid, now);
    hide ClaimTx;
    if n in s.db.packageIds {
      IdsNamePackages(s, m.name, n);
      if c.fallback {
        QueuedUnchanged(s.db.scans, c.scan, c.db.scans[c.scan], s.db.packageIds[n]);
      } else {
        QueuedTaken(s.db.scans, c.scan, c.db.scans[c.scan], s.db.packageIds[n]);
      }
    }
    ClaimedAdded(s.hist.published, s.hist.claimed, m.task, n);
  }

  predicate Moves(step: Step) {
    step.Publish? || WritesRows(step)
  }

  lemma OtherStepsBalance(s: State, step: Step, n: string)
    requires Balanced(s, n) && Enabled(s, step) && !Moves(step)
    ensures Balanced(Next(s, step), n)
  {
    hide QueuedRows, InFlight, Unclaimed, WorkedOn, StartJobTx, CompensateTx, ClaimTx, VersionsTx, FinalTx, EnqueueTx;
  }

  lemma BalancedNext(s: State, step: Step, n: string)
    requires Inv(s) && Tracked(s) && Balanced(s, n) && Enabled(s, step)
    ensures Balanced(Next(s, step), n)
  {
    hide Inv, Tracked, Balanced;
    match step
    case Enqueue(q, task, name, reason, pid, sid, now) => EnqueueBalances(s, q, task, name, reason, pid, sid, now, n);
    case Publish(q, m) => PublishBalances(s, q, m, n);
    case PublishFails(q, compensated, now) => PublishFailsBalances(s, q, compensated, now, n);
    case ClaimRow(e, pid, sid, now, raised) => ClaimBalances(s, e, pid, sid, now, raised, n);
    case SetVersions(e, fetched, id, previousId, raised) =>
      SetVersionsBalances(s, e, fetched, id, previousId, raised, n);
    case Finalise(e, findings, ids, now, raised) => FinaliseBalances(s, e, findings, ids, now, raised, n);
    case PersistFailure(e, ok, now) => PersistBalances(s, e, ok, now, n);
    case _ => OtherStepsBalance(s, step, n);
  }

  /** Tracking survives a step that publishes nothing: what is in flight comes from what was in flight. */
  lemma TasksStayTracked(tasks: set<TaskId>, enqueuers: map<nat, Enqueuer>, queue: map<nat, Message>, execs: Execs,
                         published: map<TaskId, string>, claimed: set<TaskId>,
                         tasks': set<TaskId>, enqueuers': map<nat, Enqueuer>, queue': map<nat, Message>, execs': Execs,
                         claimed': set<TaskId>)
    requires TasksTracked(tasks, enqueuers, queue, execs, published, claimed) && tasks <= tasks'
    requires forall q :: q in enqueuers' ==>
               if q in enqueuers then enqueuers'[q] == enqueuers[q]
               else enqueuers'[q].task in tasks' && enqueuers'[q].task !in tasks
    requires forall q, p :: q in enqueuers' && p in enqueuers' && q !in enqueuers && p !in enqueuers ==> q == p
    requires forall m :: m in queue' ==>
               || (m in queue && queue'[m] == queue[m])
               || (exists e :: (
                     && e in execs && queue'[m].task == execs[e].message.task
                     && queue'[m].name == execs[e].message.name))
    requires forall e :: e in execs' ==>
               || (e in execs && execs'[e].message == execs[e].message)
               || (exists m :: m in queue && execs'[e].message == queue[m])
    requires claimed' == claimed || exists e :: e in execs && claimed' == claimed + {execs[e].message.task}
    ensures TasksTracked(tasks', enqueuers', queue', execs', published, claimed')
  {
  }

  lemma PublishTracked(s: State, q: nat, m: nat)
    requires Tracked(s) && q in s.enqueuers
    ensures Tracked(OnPublish(s, q, m))
  {
    var s' := OnPublish(s, q, m);
    assert s'.hist.published.Keys == s.hist.published.Keys + {s.enqueuers[q].task};
  }

  lemma EnqueueTracked(s: State, q: nat, task: TaskId, name: string, reason: string, pid: PackageId, sid: ScanId,
                       now: Time)
    requires Tracked(s) && CanEnqueue(s, q, task, pid, sid)
    ensures Tracked(OnEnqueue(s, q, task, name, reason, pid, sid, now))
  {
    EnqueueTxWrites(s.db, task, name, reason, pid, sid, now);
    hide EnqueueTx, TasksTracked;
    var s' := OnEnqueue(s, q, task, name, reason, pid, sid, now);
    TasksStayTracked(s.db.jobs.Keys, s.enqueuers, s.queue, s.execs, s.hist.published, s.hist.claimed,
                     s'.db.jobs.Keys, s'.enqueuers, s'.queue, s'.execs, s'.hist.claimed);
  }

  lemma OthersTracked(s: State, step: Step)
    requires Inv(s) && Tracked(s) && Enabled(s, step) && !step.Publish? && !step.Enqueue?
    ensures Tracked(Next(s, step))
  {
    hide Inv, TasksTracked, WorkedOn, FreshIds, NextQueued, StartJobTx, CompensateTx, ClaimTx, VersionsTx, FinalTx;
    JobsMoveForward(s, step);
    var s' := Next(s, step);
    TasksStayTracked(s.db.jobs.Keys, s.enqueuers, s.queue, s.execs, s.hist.published, s.hist.claimed,
                     s'.db.jobs.Keys, s'.enqueuers, s'.queue, s'.execs, s'.hist.claimed);
  }

  lemma TrackedNext(s: State, step: Step)
    requires Inv(s) && Tracked(s) && Enabled(s, step)
    ensures Tracked(Next(s, step))
  {
    hide Inv, Tracked;
    match step
    case Publish(q, m) => PublishTracked(s, q, m);
    case Enqueue(q, task, name, reason, pid, sid, now) => EnqueueTracked(s, q, task, name, reason, pid, sid, now);
    case _ => OthersTracked(s, step);
  }

  lemma {:induction false} BalancedRun(s: State, steps: seq<Step>, n: string)
    requires Inv(s) && Tracked(s) && Balanced(s, n) && ValidRun(s, steps)
    ensures Balanced(Run(s, steps), n)
    decreases |steps|
  {
    hide Inv, Tracked, Balanced, Next, Enabled;
    if steps != [] {
      InvNext(s, steps[0]);
      TrackedNext(s, steps[0]);
      BalancedNext(s, steps[0], n);
      BalancedRun(Next(s, steps[0]), steps[1..], n);
    }
  }

  lemma StartsBalanced(n: string)
    ensures Inv(Init) && Tracked(Init) && Balanced(Init, n)
  {
    assert UnclaimedTasks(Init.hist.published, Init.hist.claimed, n) == {};
  }

  /** The law of queued rows, for every package name in every reachable state. */
  lemma QueuedRowsConserved(s: State, name: string)
    requires Reachable(s)
    ensures Balanced(s, name)
  {
    var steps :| ValidRun(Init, steps) && Run(Init, steps) == s;
    StartsBalanced(name);
    hide Inv, Tracked, Balanced, Next, Enabled, ValidRun;
    BalancedRun(Init, steps, name);
  }

  /** The bounds, and equality as long as no task was claimed twice; then no claim ever found nothing queued. */
  lemma QueuedRowsBounded(s: State, name: string)
    requires Reachable(s)
    ensures var q := QueuedRows(s.db.packageIds, s.db.scans, name);
            var owed := Unclaimed(s.hist.published, s.hist.claimed, name)
                        + s.hist.failedPublishes[name] + InFlight(s.enqueuers, name);
            && owed - s.hist.extraClaims[name] <= q <= owed
            && (s.hist.extraClaims[name] == 0 ==> q == owed && s.hist.fallbacks[name] == 0)
  {
    QueuedRowsConserved(s, name);
  }
}
