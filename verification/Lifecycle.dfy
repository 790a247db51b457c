/**
 The scan and job lifecycle as a state machine: enqueueing, the broker, the worker task of app/worker/tasks.py
 and ScanPackageUseCase.execute, with every `async with unit_of_work()` block one atomic step. Any number of
 enqueues and executions interleave, and every block, publish and piece of work in between can fail.
 */
module Lifecycle {
  import opened Wrappers
  import opened Scoring
  import opened Tables
  import opened Transactions

  /** autoretry with max_retries = 3 */
  type Retries = k: nat | k <= 3

  datatype Message = Message(task: TaskId, name: string, reason: string, retries: Retries)

  /** An enqueue that has committed its rows and not published its message yet. */
  datatype Enqueuer = Enqueuer(task: TaskId, name: string, reason: string, scan: ScanId)

  /** How far one execution of the worker task has got; each stage is left by its next transaction. */
  datatype Stage =
    | Delivered                                                     // next: mark the job running
    | Started                                                       // next: claim a scan row
    | Claimed(pid: PackageId, scan: ScanId)                         // next: fetch metadata, set versions
    | Versioned(pid: PackageId, scan: ScanId, latest: string)       // next: analyse, final transaction
    | Committed(scan: ScanId, latest: string)                       // next: mark the job completed
    | Failing(scan: ScanId, retryable: bool, message: string)       // next: mark the scan failed
    | Stale(scan: ScanId, message: string)                          // the same, after a claim that was rolled back
    | Raised(retryable: bool)                                       // next: mark the job failed
    | Reraised(retryable: bool)                                     // next: acknowledge, maybe retry

  datatype Exec = Exec(message: Message, stage: Stage)

  /** One committed final transaction. */
  datatype Final = Final(task: TaskId, scan: ScanId, latest: string)

  /** What has happened, for statements about runs; no step looks at it. */
  datatype History = History(
    published: map<TaskId, string>,      // published messages, by task, with the package name
    failedPublishes: multiset<string>,   // enqueues whose publish failed, by package name
    claimed: set<TaskId>,                // tasks of which some execution passed the claim
    extraClaims: multiset<string>,       // claims by a second or later execution of a task
    fallbacks: multiset<string>,         // claims that found nothing queued and created a row
    struck: set<ScanId>,                 // rows failed by someone else while an execution worked on them
    abandoned: set<ScanId>,              // rows whose owner was lost or could not persist its failure
    finals: set<Final>)

  datatype State = State(
    db: Db, enqueuers: map<nat, Enqueuer>, queue: map<nat, Message>, execs: map<nat, Exec>, hist: History)

  const Init := State(EmptyDb, map[], map[], map[],
                      History(map[], multiset{}, {}, multiset{}, multiset{}, {}, {}, {}))

  datatype Step =
    | Enqueue(q: nat, task: TaskId, name: string, reason: string, pid: PackageId, sid: ScanId, now: Time)
    | Publish(q: nat, m: nat)
    | PublishFails(q: nat, compensated: bool, now: Time)
    | Deliver(m: nat, e: nat)
    | DeliverAgain(e: nat, m: nat)                        // the broker repeats a message still being worked on
    | LoseWorker(e: nat, m: nat)                          // acks_late: the message goes back to the queue
    | StartJob(e: nat, now: Time)
    | StartJobFails(e: nat)
    | ClaimRow(e: nat, pid: PackageId, sid: ScanId, now: Time, raised: Option<string>)
    | ClaimFails(e: nat)                                  // the claim raises before a row id is assigned
    | ClaimCommitFails(e: nat, message: string)           // the claim raises after that, and is rolled back
    | SetVersions(e: nat, fetched: Fetched, id: nat, previousId: nat, raised: Option<string>)
    | WorkFails(e: nat, retryable: bool, message: string) // fetch, download, extract, analyse, or a rolled back block
    | Finalise(e: nat, findings: seq<Finding>, ids: seq<FindingId>, now: Time, raised: Option<string>)
    | PersistFailure(e: nat, ok: bool, now: Time)
    | FailJob(e: nat, ok: bool, message: string, now: Time)
    | CompleteJob(e: nat, ok: bool, now: Time)
    | Finish(e: nat, m: nat, republished: bool)           // acknowledge; a retry publishes the message again

  predicate Working(stage: Stage) { stage.Claimed? || stage.Versioned? }

  /** The execution answers for a running row: it works on it or is about to fail it. */
  predicate Owns(stage: Stage) { Working(stage) || stage.Failing? }

  predicate WorkedOn(s: State, sid: ScanId) {
    exists e :: e in s.execs && Working(s.execs[e].stage) && s.execs[e].stage.scan == sid
  }

  /** A write by someone else that fails a row an execution is working on. */
  predicate Strike(s: State, step: Step) {
    match step
    case PublishFails(q, compensated, _) => compensated && q in s.enqueuers && WorkedOn(s, s.enqueuers[q].scan)
    case PersistFailure(e, ok, _) =>
      ok && e in s.execs && s.execs[e].stage.Stale? && WorkedOn(s, s.execs[e].stage.scan)
    case _ => false
  }

  predicate FreshIds(rows: seq<FindingRow>, ids: seq<FindingId>) {
    && (forall i, j :: 0 <= i < j < |ids| ==> ids[i] != ids[j])
    && (forall i, k :: 0 <= i < |rows| && 0 <= k < |ids| ==> rows[i].id != ids[k])
  }

  function At(s: State, e: nat, stage: Stage): State
    requires e in s.execs
  {
    s.(execs := s.execs[e := s.execs[e].(stage := stage)])
  }

  // ---------- enqueueing

  predicate CanEnqueue(s: State, q: nat, task: TaskId, pid: PackageId, sid: ScanId) {
    q !in s.enqueuers && task !in s.db.jobs && pid !in s.db.packages && sid !in s.db.scans
  }

  function OnEnqueue(s: State, q: nat, task: TaskId, name: string, reason: string,
                     pid: PackageId, sid: ScanId, now: Time): State {
    s.(db := EnqueueTx(s.db, task, name, reason, pid, sid, now),
       enqueuers := s.enqueuers[q := Enqueuer(task, name, reason, sid)])
  }

  function OnPublish(s: State, q: nat, m: nat): State
    requires q in s.enqueuers
  {
    var e := s.enqueuers[q];
    s.(enqueuers := s.enqueuers - {q},
       queue := s.queue[m := Message(e.task, e.name, e.reason, 0)],
       hist := s.hist.(published := s.hist.published[e.task := e.name]))
  }

  function OnPublishFails(s: State, q: nat, compensated: bool, now: Time): State
    requires q in s.enqueuers
  {
    var e := s.enqueuers[q];
    s.(db := if compensated then OrRollback(s.db, CompensateTx(s.db, e.task, e.scan, now)) else s.db,
       enqueuers := s.enqueuers - {q},
       hist := s.hist.(failedPublishes := s.hist.failedPublishes + multiset{e.name},
                       struck := s.hist.struck + if compensated && WorkedOn(s, e.scan) then {e.scan} else {}))
  }

  // ---------- delivery

  function OnDeliver(s: State, m: nat, e: nat): State
    requires m in s.queue
  {
    s.(queue := s.queue - {m}, execs := s.execs[e := Exec(s.queue[m], Delivered)])
  }

  function OnDeliverAgain(s: State, e: nat, m: nat): State
    requires e in s.execs
  {
    s.(queue := s.queue[m := s.execs[e].message])
  }

  function OnLoseWorker(s: State, e: nat, m: nat): State
    requires e in s.execs
  {
    var stage := s.execs[e].stage;
    s.(queue := s.queue[m := s.execs[e].message], execs := s.execs - {e},
       hist := s.hist.(abandoned := s.hist.abandoned + if Owns(stage) then {stage.scan} else {}))
  }

  // ---------- one execution

  function OnStartJob(s: State, e: nat, now: Time): State
    requires e in s.execs
  {
    var m := s.execs[e].message;
    At(s.(db := OrRollback(s.db, StartJobTx(s.db, m.task, m.name, m.reason, now))), e, Started)
  }

  function OnDrop(s: State, e: nat): State {
    s.(execs := s.execs - {e})
  }

  predicate CanClaim(s: State, e: nat, pid: PackageId, sid: ScanId) {
    e in s.execs && s.execs[e].stage.Started? && pid !in s.db.packages && sid !in s.db.scans
  }

  function OnClaim(s: State, e: nat, pid: PackageId, sid: ScanId, now: Time, raised: Option<string>): State
    requires e in s.execs
  {
    var m := s.execs[e].message;
    var c := ClaimTx(s.db, m.name, pid, sid, now);
    At(s.(db := c.db,
          hist := s.hist.(claimed := s.hist.claimed + {m.task},
            extraClaims := s.hist.extraClaims + if m.task in s.hist.claimed then multiset{m.name} else multiset{},
            fallbacks := s.hist.fallbacks + if c.fallback then multiset{m.name} else multiset{})),
       e, if raised.Some? then Failing(c.scan, false, raised.value) else Claimed(c.pid, c.scan))
  }

  /** If nothing was queued, the row that was to be created is gone; failing it raises, and that is swallowed. */
  function OnClaimCommitFails(s: State, e: nat, message: string): State
    requires e in s.execs
  {
    var name := s.execs[e].message.name;
    var next := if name in s.db.packageIds then NextQueued(s.db.scans, s.db.packageIds[name]) else None;
    At(s, e, if next.Some? then Stale(next.value, message) else Raised(false))
  }

  /** What the id sequence of package_versions may hand out. */
  predicate UnusedIds(versions: map<VersionKey, Version>, id: nat, previousId: nat) {
    id != previousId && forall key :: key in versions ==> versions[key].id != id && versions[key].id != previousId
  }

  predicate CanSetVersions(s: State, e: nat, fetched: Fetched, id: nat, previousId: nat) {
    && e in s.execs && s.execs[e].stage.Claimed? && WellFormed(fetched)
    && UnusedIds(s.db.versions, id, previousId)
  }

  function OnSetVersions(s: State, e: nat, fetched: Fetched, id: nat, previousId: nat, raised: Option<string>): State
    requires e in s.execs && s.execs[e].stage.Claimed?
  {
    var c := s.execs[e].stage;
    At(s.(db := OrRollback(s.db, VersionsTx(s.db, c.pid, c.scan, fetched, id, previousId))), e,
       if raised.Some? then Failing(c.scan, false, raised.value) else Versioned(c.pid, c.scan, fetched.latest))
  }

  function OnWorkFails(s: State, e: nat, retryable: bool, message: string): State
    requires e in s.execs && Working(s.execs[e].stage)
  {
    At(s, e, Failing(s.execs[e].stage.scan, retryable, message))
  }

  predicate CanFinalise(s: State, e: nat, findings: seq<Finding>, ids: seq<FindingId>) {
    e in s.execs && s.execs[e].stage.Versioned? && |ids| == |findings| && FreshIds(s.db.findings, ids)
  }

  function OnFinalise(s: State, e: nat, findings: seq<Finding>, ids: seq<FindingId>, now: Time,
                      raised: Option<string>): State
    requires CanFinalise(s, e, findings, ids)
  {
    var v := s.execs[e].stage;
    At(s.(db := OrRollback(s.db, FinalTx(s.db, v.pid, v.scan, v.latest, findings, ids, now)),
          hist := s.hist.(finals := s.hist.finals + {Final(s.execs[e].message.task, v.scan, v.latest)})),
       e, if raised.Some? then Failing(v.scan, false, raised.value) else Committed(v.scan, v.latest))
  }

  predicate CanPersist(s: State, e: nat) {
    e in s.execs && (s.execs[e].stage.Failing? || s.execs[e].stage.Stale?)
  }

  function OnPersist(s: State, e: nat, ok: bool, now: Time): State
    requires CanPersist(s, e)
  {
    var f := s.execs[e].stage;
    At(s.(db := if ok then OrRollback(s.db, MarkScanFailed(s.db, f.scan, f.message, now)) else s.db,
          hist := s.hist.(struck := s.hist.struck + if ok && f.Stale? && WorkedOn(s, f.scan) then {f.scan} else {},
                          abandoned := s.hist.abandoned + if f.Failing? && !ok then {f.scan} else {})),
       e, Raised(f.Failing? && f.retryable))
  }

  /** A failure to record the failure replaces the original exception. */
  function OnFailJob(s: State, e: nat, ok: bool, message: string, now: Time): State
    requires e in s.execs && s.execs[e].stage.Raised?
  {
    At(s.(db := if ok then OrRollback(s.db, MarkJobFailed(s.db, s.execs[e].message.task, message, now)) else s.db),
       e, Reraised(ok && s.execs[e].stage.retryable))
  }

  function OnCompleteJob(s: State, e: nat, ok: bool, now: Time): State
    requires e in s.execs
  {
    s.(db := if ok then OrRollback(s.db, MarkJobCompleted(s.db, s.execs[e].message.task, now)) else s.db,
       execs := s.execs - {e})
  }

  function OnFinish(s: State, e: nat, m: nat, republished: bool): State
    requires e in s.execs && s.execs[e].stage.Reraised?
  {
    var msg := s.execs[e].message;
    s.(execs := s.execs - {e},
       queue := if s.execs[e].stage.retryable && msg.retries < 3 && republished
                then s.queue[m := msg.(retries := msg.retries + 1)] else s.queue)
  }

  // ---------- the machine

  predicate Enabled(s: State, step: Step) {
    match step
    case Enqueue(q, task, name, reason, pid, sid, now) => CanEnqueue(s, q, task, pid, sid)
    case Publish(q, m) => q in s.enqueuers && m !in s.queue
    case PublishFails(q, _, _) => q in s.enqueuers
    case Deliver(m, e) => m in s.queue && e !in s.execs
    case DeliverAgain(e, m) => e in s.execs && m !in s.queue
    case LoseWorker(e, m) => e in s.execs && m !in s.queue
    case StartJob(e, _) => e in s.execs && s.execs[e].stage.Delivered?
    case StartJobFails(e) => e in s.execs && s.execs[e].stage.Delivered?
    case ClaimRow(e, pid, sid, _, _) => CanClaim(s, e, pid, sid)
    case ClaimFails(e) => e in s.execs && s.execs[e].stage.Started?
    case ClaimCommitFails(e, _) => e in s.execs && s.execs[e].stage.Started?
    case SetVersions(e, fetched, id, previousId, _) => CanSetVersions(s, e, fetched, id, previousId)
    case WorkFails(e, _, _) => e in s.execs && Working(s.execs[e].stage)
    case Finalise(e, findings, ids, _, _) => CanFinalise(s, e, findings, ids)
    case PersistFailure(e, _, _) => CanPersist(s, e)
    case FailJob(e, _, _, _) => e in s.execs && s.execs[e].stage.Raised?
    case CompleteJob(e, _, _) => e in s.execs && s.execs[e].stage.Committed?
    case Finish(e, m, _) => e in s.execs && s.execs[e].stage.Reraised? && m !in s.queue
  }

  function Next(s: State, step: Step): State
    requires Enabled(s, step)
  {
    match step
    case Enqueue(q, task, name, reason, pid, sid, now) => OnEnqueue(s, q, task, name, reason, pid, sid, now)
    case Publish(q, m) => OnPublish(s, q, m)
    case PublishFails(q, compensated, now) => OnPublishFails(s, q, compensated, now)
    case Deliver(m, e) => OnDeliver(s, m, e)
    case DeliverAgain(e, m) => OnDeliverAgain(s, e, m)
    case LoseWorker(e, m) => OnLoseWorker(s, e, m)
    case StartJob(e, now) => OnStartJob(s, e, now)
    case StartJobFails(e) => OnDrop(s, e)
    case ClaimRow(e, pid, sid, now, raised) => OnClaim(s, e, pid, sid, now, raised)
    case ClaimFails(e) => At(s, e, Raised(false))
    case ClaimCommitFails(e, message) => OnClaimCommitFails(s, e, message)
    case SetVersions(e, fetched, id, previousId, raised) => OnSetVersions(s, e, fetched, id, previousId, raised)
    case WorkFails(e, retryable, message) => OnWorkFails(s, e, retryable, message)
    case Finalise(e, findings, ids, now, raised) => OnFinalise(s, e, findings, ids, now, raised)
    case PersistFailure(e, ok, now) => OnPersist(s, e, ok, now)
    case FailJob(e, ok, message, now) => OnFailJob(s, e, ok, message, now)
    case CompleteJob(e, ok, now) => OnCompleteJob(s, e, ok, now)
    case Finish(e, m, republished) => OnFinish(s, e, m, republished)
  }

  // ---------- runs

  predicate ValidRun(s: State, steps: seq<Step>)
    decreases |steps|
  {
    steps == [] || (Enabled(s, steps[0]) && ValidRun(Next(s, steps[0]), steps[1..]))
  }

  function Run(s: State, steps: seq<Step>): State
    requires ValidRun(s, steps)
    decreases |steps|
  {
    if steps == [] then s else Run(Next(s, steps[0]), steps[1..])
  }

  ghost predicate Reachable(s: State) {
    exists steps :: ValidRun(Init, steps) && Run(Init, steps) == s
  }

  lemma {:induction false} RunAppend(s: State, a: seq<Step>, b: seq<Step>)
    requires ValidRun(s, a)
    ensures ValidRun(s, a + b) <==> ValidRun(Run(s, a), b)
    ensures ValidRun(s, a + b) ==> Run(s, a + b) == Run(Run(s, a), b)
    decreases |a|
  {
    if a == [] {
      assert a + b == b;
    } else {
      assert (a + b)[0] == a[0] && (a + b)[1..] == a[1..] + b;
      RunAppend(Next(s, a[0]), a[1..], b);
    }
  }
}
