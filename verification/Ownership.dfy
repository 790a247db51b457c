/** Who answers for which row: the invariant every interleaving keeps, and exactly what breaks exclusive work. */
module Ownership {
  import opened Wrappers
  import opened Scoring
  import opened Tables
  import opened Transactions
  import opened Lifecycle

  type Packages = map<PackageId, Package>
  type Scans = map<ScanId, Scan>
  type Execs = map<nat, Exec>
  type Index = map<string, PackageId>

  /** The row exists and belongs to the package of that name. */
  predicate RowOf(index: Index, scans: Scans, name: string, sid: ScanId) {
    name in index && sid in scans && scans[sid].packageId == index[name]
  }

  /** `packageIds` is a unique index on package names, and no reference dangles. */
  ghost predicate RefsOk(packages: Packages, index: Index, scans: Scans,
                         enqueuers: map<nat, Enqueuer>, queue: map<nat, Message>) {
    && (forall n :: n in index ==> index[n] in packages && packages[index[n]].name == n)
    && (forall p :: p in packages ==> packages[p].name in index && index[packages[p].name] == p)
    && (forall r :: r in scans ==> scans[r].packageId in packages)
    && (forall q :: q in enqueuers ==> RowOf(index, scans, enqueuers[q].name, enqueuers[q].scan))
    && (forall m :: m in queue ==> queue[m].name in index)
  }

  ghost predicate Extends(index: Index, index': Index) {
    forall n :: n in index ==> n in index' && index'[n] == index[n]
  }

  /** What an execution at a stage may rely on about its row. */
  predicate StageOk(index: Index, scans: Scans, struck: set<ScanId>, name: string, stage: Stage) {
    && name in index
    && (Working(stage) ==>
          && RowOf(index, scans, name, stage.scan) && index[name] == stage.pid
          && scans[stage.scan].status == if stage.scan in struck then Failed else Running)
    && (stage.Failing? ==> RowOf(index, scans, name, stage.scan) && scans[stage.scan].status != Queued)
    && (stage.Stale? || stage.Committed? ==> RowOf(index, scans, name, stage.scan))
  }

  ghost predicate OwnedBy(execs: Execs, sid: ScanId, e: nat) {
    e in execs && Owns(execs[e].stage) && execs[e].stage.scan == sid
  }

  ghost predicate ExclusiveOwners(execs: Execs) {
    forall e, f :: e in execs && f in execs && e != f && Owns(execs[e].stage) && Owns(execs[f].stage)
      ==> execs[e].stage.scan != execs[f].stage.scan
  }

  /**
   Every execution's row is as its stage expects; no row has two owners; a running row has an owner unless its
   owner was lost or could not persist its failure.
   */
  ghost predicate RowsOk(index: Index, scans: Scans, execs: Execs, struck: set<ScanId>, abandoned: set<ScanId>) {
    && (forall e :: e in execs ==> StageOk(index, scans, struck, execs[e].message.name, execs[e].stage))
    && ExclusiveOwners(execs)
    && (forall r :: r in scans && scans[r].status == Running && r !in abandoned ==> exists e :: OwnedBy(execs, r, e))
    && (forall r :: r in struck ==> r in scans && scans[r].status == Failed)
  }

  /** Every task the machine still knows has its job row. */
  ghost predicate TasksOk(tasks: set<TaskId>, enqueuers: map<nat, Enqueuer>, queue: map<nat, Message>, execs: Execs) {
    && (forall q :: q in enqueuers ==> enqueuers[q].task in tasks)
    && (forall m :: m in queue ==> queue[m].task in tasks)
    && (forall e :: e in execs ==> execs[e].message.task in tasks)
  }

  ghost predicate Inv(s: State) {
    && TasksOk(s.db.jobs.Keys, s.enqueuers, s.queue, s.execs)
    && RefsOk(s.db.packages, s.db.packageIds, s.db.scans, s.enqueuers, s.queue)
    && RowsOk(s.db.packageIds, s.db.scans, s.execs, s.hist.struck, s.hist.abandoned)
  }

  // ---------- the ways a step touches rows and executions

  lemma RowAdded(index: Index, scans: Scans, execs: Execs, struck: set<ScanId>, abandoned: set<ScanId>,
                 index': Index, sid: ScanId, row: Scan)
    requires RowsOk(index, scans, execs, struck, abandoned)
    requires Extends(index, index')
    requires sid !in scans && row.status == Queued
    ensures RowsOk(index', scans[sid := row], execs, struck, abandoned)
  {
  }

  /** Someone who does not own the row fails it. */
  lemma RowFailedByOther(index: Index, scans: Scans, execs: Execs, struck: set<ScanId>, abandoned: set<ScanId>,
                         sid: ScanId, row: Scan, struck': set<ScanId>)
    requires RowsOk(index, scans, execs, struck, abandoned)
    requires sid in scans && row.packageId == scans[sid].packageId && row.status == Failed
    requires struck <= struck' <= struck + {sid}
    requires sid in struck' <==>
               sid in struck || exists e :: e in execs && Working(execs[e].stage) && execs[e].stage.scan == sid
    ensures RowsOk(index, scans[sid := row], execs, struck', abandoned)
  {
  }

  /** An execution that owns nothing moves to a stage where it owns nothing. */
  lemma IdleMoved(index: Index, scans: Scans, execs: Execs, struck: set<ScanId>, abandoned: set<ScanId>, e: nat,
                  x: Exec)
    requires RowsOk(index, scans, execs, struck, abandoned)
    requires e in execs ==> !Owns(execs[e].stage)
    requires !Owns(x.stage) && StageOk(index, scans, struck, x.message.name, x.stage)
    ensures RowsOk(index, scans, execs[e := x], struck, abandoned)
  {
    assert forall r, f :: OwnedBy(execs, r, f) ==> OwnedBy(execs[e := x], r, f);
  }

  /** An execution takes a row nobody owns. */
  lemma RowTaken(index: Index, scans: Scans, execs: Execs, struck: set<ScanId>, abandoned: set<ScanId>,
                 index': Index, sid: ScanId, row: Scan, e: nat, x: Exec)
    requires RowsOk(index, scans, execs, struck, abandoned)
    requires Extends(index, index')
    requires sid in scans ==> scans[sid].status == Queued && row.packageId == scans[sid].packageId
    requires row.status == Running
    requires e in execs && !Owns(execs[e].stage)
    requires Owns(x.stage) && x.stage.scan == sid && x.message.name in index' && row.packageId == index'[x.message.name]
    requires Working(x.stage) ==> x.stage.pid == row.packageId
    ensures RowsOk(index', scans[sid := row], execs[e := x], struck, abandoned)
  {
    assert forall r, f :: OwnedBy(execs, r, f) ==> OwnedBy(execs[e := x], r, f);
    assert OwnedBy(execs[e := x], sid, e);
  }

  /** The owner writes its row and moves on, keeping the row or letting it go. */
  lemma OwnerMoved(index: Index, scans: Scans, execs: Execs, struck: set<ScanId>, abandoned: set<ScanId>,
                   sid: ScanId, row: Scan, e: nat, x: Exec, abandoned': set<ScanId>)
    requires RowsOk(index, scans, execs, struck, abandoned) && abandoned <= abandoned'
    requires OwnedBy(execs, sid, e) && sid in scans && row.packageId == scans[sid].packageId
    requires sid in struck ==> row.status == Failed
    requires StageOk(index, scans[sid := row], struck, x.message.name, x.stage)
    requires if Owns(x.stage) then x.stage.scan == sid else row.status != Running || sid in abandoned'
    ensures RowsOk(index, scans[sid := row], execs[e := x], struck, abandoned')
  {
    assert forall r, f :: OwnedBy(execs, r, f) && r != sid ==> OwnedBy(execs[e := x], r, f);
    if Owns(x.stage) {
      assert OwnedBy(execs[e := x], sid, e);
    }
  }

  lemma ExecGone(index: Index, scans: Scans, execs: Execs, struck: set<ScanId>, abandoned: set<ScanId>,
                 e: nat, abandoned': set<ScanId>)
    requires RowsOk(index, scans, execs, struck, abandoned) && abandoned <= abandoned'
    requires e in execs && Owns(execs[e].stage) ==> execs[e].stage.scan in abandoned'
    ensures RowsOk(index, scans, execs - {e}, struck, abandoned')
  {
    assert forall r, f :: OwnedBy(execs, r, f) && f != e ==> OwnedBy(execs - {e}, r, f);
  }

  // ---------- every step keeps the invariant

  lemma UpsertKeepsRefs(db: Db, name: string, pid: PackageId, enqueuers: map<nat, Enqueuer>, queue: map<nat, Message>)
    requires RefsOk(db.packages, db.packageIds, db.scans, enqueuers, queue)
    requires pid !in db.packages
    ensures var d := UpsertPackage(db, name, pid);
            && RefsOk(d.packages, d.packageIds, db.scans, enqueuers, queue)
            && name in d.packageIds && d.packageIds[name] == PackageIdOf(db, name, pid)
            && d.packageIds[name] in d.packages
            && Extends(db.packageIds, d.packageIds)
  {
    if name !in db.packageIds {
      var packages, index := db.packages[pid := Package(name, None, None)], db.packageIds[name := pid];
      assert forall n :: n in index ==> index[n] in packages && packages[index[n]].name == n;
      assert forall p :: p in packages ==> packages[p].name in index && index[packages[p].name] == p;
    }
  }

  lemma RowKeepsRefs(packages: Packages, index: Index, scans: Scans, enqueuers: map<nat, Enqueuer>,
                     queue: map<nat, Message>, sid: ScanId, row: Scan)
    requires RefsOk(packages, index, scans, enqueuers, queue)
    requires row.packageId in packages && (sid in scans ==> scans[sid].packageId == row.packageId)
    ensures RefsOk(packages, index, scans[sid := row], enqueuers, queue)
  {
  }

  lemma EnqueuerKeepsRefs(packages: Packages, index: Index, scans: Scans, enqueuers: map<nat, Enqueuer>,
                          queue: map<nat, Message>, q: nat, enqueuer: Enqueuer)
    requires RefsOk(packages, index, scans, enqueuers, queue) && RowOf(index, scans, enqueuer.name, enqueuer.scan)
    ensures RefsOk(packages, index, scans, enqueuers[q := enqueuer], queue)
  {
  }

  lemma InvEnqueue(s: State, q: nat, task: TaskId, name: string, reason: string, pid: PackageId, sid: ScanId, now: Time)
    requires Inv(s) && CanEnqueue(s, q, task, pid, sid)
    ensures Inv(OnEnqueue(s, q, task, name, reason, pid, sid, now))
  {
    EnqueueTxWrites(s.db, task, name, reason, pid, sid, now);
    hide EnqueueTx, UpsertPackage, RefsOk, RowsOk;
    var d := UpsertPackage(s.db, name, pid);
    UpsertKeepsRefs(s.db, name, pid, s.enqueuers, s.queue);
    var row := NewScan(d.packageIds[name], Queued, now, now);
    RowAdded(s.db.packageIds, s.db.scans, s.execs, s.hist.struck, s.hist.abandoned, d.packageIds, sid, row);
    RowKeepsRefs(d.packages, d.packageIds, s.db.scans, s.enqueuers, s.queue, sid, row);
    EnqueuerKeepsRefs(d.packages, d.packageIds, s.db.scans[sid := row], s.enqueuers, s.queue, q,
                      Enqueuer(task, name, reason, sid));
  }

  lemma InvPublish(s: State, q: nat, m: nat)
    requires Inv(s) && q in s.enqueuers
    ensures Inv(OnPublish(s, q, m))
  {
    hide RowsOk;
  }

  lemma InvPublishFails(s: State, q: nat, compensated: bool, now: Time)
    requires Inv(s) && q in s.enqueuers
    ensures Inv(OnPublishFails(s, q, compensated, now))
  {
    var sid := s.enqueuers[q].scan;
    CompensateTxWrites(s.db, s.enqueuers[q].task, sid, now);
    hide CompensateTx;
    var s' := OnPublishFails(s, q, compensated, now);
    if compensated && s.db.scans[sid].status == Running {
      RowFailedByOther(s.db.packageIds, s.db.scans, s.execs, s.hist.struck, s.hist.abandoned,
                       sid, s'.db.scans[sid], s'.hist.struck);
    } else {
      assert compensated && WorkedOn(s, sid) ==> sid in s.hist.struck;
      assert s'.hist.struck == s.hist.struck;
      assert s'.db.scans == s.db.scans;
    }
    hide RowsOk;
    if compensated {
      RowKeepsRefs(s.db.packages, s.db.packageIds, s.db.scans, s.enqueuers, s.queue, sid, s'.db.scans[sid]);
    }
  }

  lemma InvDeliver(s: State, m: nat, e: nat)
    requires Inv(s) && m in s.queue && e !in s.execs
    ensures Inv(OnDeliver(s, m, e))
  {
    hide RowsOk;
    IdleMoved(s.db.packageIds, s.db.scans, s.execs, s.hist.struck, s.hist.abandoned, e, Exec(s.queue[m], Delivered));
  }

  /** Steps that only touch the broker, the jobs, or drop an execution. */
  lemma InvGone(s: State, e: nat, s': State)
    requires Inv(s) && s'.db.scans == s.db.scans && s'.db.packages == s.db.packages
    requires s'.db.packageIds == s.db.packageIds
    requires s'.execs == s.execs || s'.execs == s.execs - {e}
    requires s'.enqueuers == s.enqueuers && s'.hist.struck == s.hist.struck && s.hist.abandoned <= s'.hist.abandoned
    requires s'.db.jobs.Keys == s.db.jobs.Keys
    requires forall m :: m in s'.queue ==> s'.queue[m].name in s.db.packageIds && s'.queue[m].task in s.db.jobs
    requires s'.execs != s.execs && e in s.execs && Owns(s.execs[e].stage) ==>
               s.execs[e].stage.scan in s'.hist.abandoned
    ensures Inv(s')
  {
    if s'.execs != s.execs {
      ExecGone(s.db.packageIds, s.db.scans, s.execs, s.hist.struck, s.hist.abandoned, e, s'.hist.abandoned);
    } else {
      assert forall r, f :: OwnedBy(s.execs, r, f) ==> OwnedBy(s'.execs, r, f);
    }
  }

  /** Steps in which an execution that owns no row moves on, perhaps writing its job row. */
  lemma InvIdle(s: State, e: nat, s': State)
    requires Inv(s) && e in s.execs && !Owns(s.execs[e].stage)
    requires s'.db.scans == s.db.scans && s'.db.packages == s.db.packages && s'.db.packageIds == s.db.packageIds
    requires e in s'.execs && s'.execs == s.execs[e := s'.execs[e]]
    requires s'.execs[e].message == s.execs[e].message && !Owns(s'.execs[e].stage)
    requires StageOk(s.db.packageIds, s.db.scans, s.hist.struck, s.execs[e].message.name, s'.execs[e].stage)
    requires s'.enqueuers == s.enqueuers && s'.queue == s.queue && s.db.jobs.Keys <= s'.db.jobs.Keys
    requires s'.hist.struck == s.hist.struck && s'.hist.abandoned == s.hist.abandoned
    ensures Inv(s')
  {
    hide RowsOk;
    IdleMoved(s.db.packageIds, s.db.scans, s.execs, s.hist.struck, s.hist.abandoned, e, s'.execs[e]);
  }

  /** Steps in which an owner writes at most its own row and moves on. */
  lemma InvOwner(s: State, e: nat, sid: ScanId, s': State)
    requires Inv(s) && OwnedBy(s.execs, sid, e) && sid in s.db.scans && sid in s'.db.scans && e in s'.execs
    requires s'.db.scans == s.db.scans[sid := s'.db.scans[sid]]
    requires s'.db.scans[sid].packageId == s.db.scans[sid].packageId
    requires sid in s.hist.struck ==> s'.db.scans[sid].status == Failed
    requires s'.db.packageIds == s.db.packageIds && s'.db.packages.Keys == s.db.packages.Keys
    requires forall p :: p in s.db.packages ==> s'.db.packages[p].name == s.db.packages[p].name
    requires s'.execs == s.execs[e := s'.execs[e]] && s'.execs[e].message == s.execs[e].message
    requires StageOk(s.db.packageIds, s'.db.scans, s.hist.struck, s.execs[e].message.name, s'.execs[e].stage)
    requires if Owns(s'.execs[e].stage) then s'.execs[e].stage.scan == sid
             else s'.db.scans[sid].status != Running || sid in s'.hist.abandoned
    requires s'.enqueuers == s.enqueuers && s'.queue == s.queue && s.db.jobs.Keys == s'.db.jobs.Keys
    requires s'.hist.struck == s.hist.struck && s.hist.abandoned <= s'.hist.abandoned
    ensures Inv(s')
  {
    hide RowsOk;
    OwnerMoved(s.db.packageIds, s.db.scans, s.execs, s.hist.struck, s.hist.abandoned,
               sid, s'.db.scans[sid], e, s'.execs[e], s'.hist.abandoned);
  }

  /** What the invariant says about one execution. */
  lemma Facts(s: State, e: nat)
    requires Inv(s) && e in s.execs
    ensures StageOk(s.db.packageIds, s.db.scans, s.hist.struck, s.execs[e].message.name, s.execs[e].stage)
    ensures Working(s.execs[e].stage) ==>
              s.execs[e].stage.pid in s.db.packages && s.db.scans[s.execs[e].stage.scan].status in {Running, Failed}
    ensures Owns(s.execs[e].stage) && s.execs[e].stage.scan in s.hist.struck ==>
              s.db.scans[s.execs[e].stage.scan].status == Failed
    ensures s.execs[e].message.task in s.db.jobs
  {
  }

  lemma EnqueuerFacts(s: State, q: nat)
    requires Inv(s) && q in s.enqueuers
    ensures RowOf(s.db.packageIds, s.db.scans, s.enqueuers[q].name, s.enqueuers[q].scan)
    ensures s.enqueuers[q].task in s.db.jobs
  {
  }

  lemma NothingQueuedForNewPackage(s: State, pid: PackageId)
    requires Inv(s) && pid !in s.db.packages
    ensures QueuedScans(s.db.scans, pid) == {}
  {
  }

  ghost predicate RowsFailed(rows: set<ScanId>, scans: Scans) {
    forall r :: r in rows ==> r in scans && scans[r].status == Failed
  }

  lemma StruckAreFailed(s: State)
    requires Inv(s)
    ensures RowsFailed(s.hist.struck, s.db.scans)
  {
  }

  lemma InvClaim(s: State, e: nat, pid: PackageId, sid: ScanId, now: Time, raised: Option<string>)
    requires Inv(s) && CanClaim(s, e, pid, sid)
    ensures Inv(OnClaim(s, e, pid, sid, now, raised))
  {
    Facts(s, e);
    var name := s.execs[e].message.name;
    var d := UpsertPackage(s.db, name, pid);
    UpsertKeepsRefs(s.db, name, pid, s.enqueuers, s.queue);
    hide RowsOk;
    var c := ClaimTx(s.db, name, pid, sid, now);
    var s' := OnClaim(s, e, pid, sid, now, raised);
    var row := c.db.scans[c.scan];
    assert d.packageIds[name] in d.packages;
    RowTaken(s.db.packageIds, s.db.scans, s.execs, s.hist.struck, s.hist.abandoned,
             d.packageIds, c.scan, row, e, s'.execs[e]);
    hide RefsOk;
    RowKeepsRefs(d.packages, d.packageIds, s.db.scans, s.enqueuers, s.queue, c.scan, row);
  }

  lemma InvSetVersions(s: State, e: nat, fetched: Fetched, id: nat, previousId: nat, raised: Option<string>)
    requires Inv(s) && e in s.execs && s.execs[e].stage.Claimed?
    ensures Inv(OnSetVersions(s, e, fetched, id, previousId, raised))
  {
    Facts(s, e);
    var c := s.execs[e].stage;
    hide Inv;
    VersionsTxWrites(s.db, c.pid, c.scan, fetched, id, previousId);
    hide VersionsTx;
    InvOwner(s, e, c.scan, OnSetVersions(s, e, fetched, id, previousId, raised));
  }

  lemma InvWorkFails(s: State, e: nat, retryable: bool, message: string)
    requires Inv(s) && e in s.execs && Working(s.execs[e].stage)
    ensures Inv(OnWorkFails(s, e, retryable, message))
  {
    Facts(s, e);
    hide Inv;
    InvOwner(s, e, s.execs[e].stage.scan, OnWorkFails(s, e, retryable, message));
  }

  lemma InvFinalise(s: State, e: nat, findings: seq<Finding>, ids: seq<FindingId>, now: Time, raised: Option<string>)
    requires Inv(s) && CanFinalise(s, e, findings, ids)
    ensures Inv(OnFinalise(s, e, findings, ids, now, raised))
  {
    hide Inv;
    Facts(s, e);
    var v := s.execs[e].stage;
    FinalTxWrites(s.db, v.pid, v.scan, v.latest, findings, ids, now);
    hide FinalTx, ReplaceFindings, CalculateScore, CalculateRiskLevel, FreshIds;
    InvOwner(s, e, v.scan, OnFinalise(s, e, findings, ids, now, raised));
  }

  lemma InvPersistOwned(s: State, e: nat, ok: bool, now: Time)
    requires Inv(s) && CanPersist(s, e) && s.execs[e].stage.Failing?
    ensures Inv(OnPersist(s, e, ok, now))
  {
    hide Inv, WorkedOn;
    Facts(s, e);
    InvOwner(s, e, s.execs[e].stage.scan, OnPersist(s, e, ok, now));
  }

  lemma InvPersistStale(s: State, e: nat, ok: bool, now: Time)
    requires Inv(s) && CanPersist(s, e) && s.execs[e].stage.Stale?
    ensures Inv(OnPersist(s, e, ok, now))
  {
    Facts(s, e);
    var s' := OnPersist(s, e, ok, now);
    var sid := s.execs[e].stage.scan;
    if ok && s.db.scans[sid].status == Running {
      RowFailedByOther(s.db.packageIds, s.db.scans, s.execs, s.hist.struck, s.hist.abandoned,
                       sid, s'.db.scans[sid], s'.hist.struck);
      hide RowsOk;
      RowKeepsRefs(s.db.packages, s.db.packageIds, s.db.scans, s.enqueuers, s.queue, sid, s'.db.scans[sid]);
      IdleMoved(s'.db.packageIds, s'.db.scans, s.execs, s'.hist.struck, s'.hist.abandoned, e, s'.execs[e]);
    } else {
      assert ok && WorkedOn(s, sid) ==> sid in s.hist.struck;
      assert s'.hist.struck == s.hist.struck;
      assert s'.db.scans == s.db.scans;
      hide Inv, WorkedOn;
      InvIdle(s, e, s');
    }
  }

  lemma InvPersist(s: State, e: nat, ok: bool, now: Time)
    requires Inv(s) && CanPersist(s, e)
    ensures Inv(OnPersist(s, e, ok, now))
  {
    hide Inv, OnPersist;
    if s.execs[e].stage.Failing? {
      InvPersistOwned(s, e, ok, now);
    } else {
      InvPersistStale(s, e, ok, now);
    }
  }

  lemma InvDeliverAgain(s: State, e: nat, m: nat)
    requires Inv(s) && e in s.execs
    ensures Inv(OnDeliverAgain(s, e, m))
  {
    InvGone(s, e, OnDeliverAgain(s, e, m));
  }

  lemma InvLoseWorker(s: State, e: nat, m: nat)
    requires Inv(s) && e in s.execs
    ensures Inv(OnLoseWorker(s, e, m))
  {
    InvGone(s, e, OnLoseWorker(s, e, m));
  }

  lemma InvStartJob(s: State, e: nat, now: Time)
    requires Inv(s) && e in s.execs && s.execs[e].stage.Delivered?
    ensures Inv(OnStartJob(s, e, now))
  {
    Facts(s, e);
    hide Inv;
    InvIdle(s, e, OnStartJob(s, e, now));
  }

  lemma InvDrop(s: State, e: nat)
    requires Inv(s) && e in s.execs && !Owns(s.execs[e].stage)
    ensures Inv(OnDrop(s, e))
  {
    InvGone(s, e, OnDrop(s, e));
  }

  lemma InvClaimFails(s: State, e: nat)
    requires Inv(s) && e in s.execs && s.execs[e].stage.Started?
    ensures Inv(At(s, e, Raised(false)))
  {
    Facts(s, e);
    hide Inv;
    InvIdle(s, e, At(s, e, Raised(false)));
  }

  lemma InvClaimCommitFails(s: State, e: nat, message: string)
    requires Inv(s) && e in s.execs && s.execs[e].stage.Started?
    ensures Inv(OnClaimCommitFails(s, e, message))
  {
    Facts(s, e);
    hide Inv;
    InvIdle(s, e, OnClaimCommitFails(s, e, message));
  }

  lemma InvFailJob(s: State, e: nat, ok: bool, message: string, now: Time)
    requires Inv(s) && e in s.execs && s.execs[e].stage.Raised?
    ensures Inv(OnFailJob(s, e, ok, message, now))
  {
    Facts(s, e);
    hide Inv;
    InvIdle(s, e, OnFailJob(s, e, ok, message, now));
  }

  lemma InvCompleteJob(s: State, e: nat, ok: bool, now: Time)
    requires Inv(s) && e in s.execs && s.execs[e].stage.Committed?
    ensures Inv(OnCompleteJob(s, e, ok, now))
  {
    Facts(s, e);
    InvGone(s, e, OnCompleteJob(s, e, ok, now));
  }

  lemma InvFinish(s: State, e: nat, m: nat, republished: bool)
    requires Inv(s) && e in s.execs && s.execs[e].stage.Reraised?
    ensures Inv(OnFinish(s, e, m, republished))
  {
    Facts(s, e);
    InvGone(s, e, OnFinish(s, e, m, republished));
  }

  /** One inductive step, for every step of the machine. */
  lemma InvNext(s: State, step: Step)
    requires Inv(s) && Enabled(s, step)
    ensures Inv(Next(s, step))
  {
    hide Inv;
    match step
    case Enqueue(q, task, name, reason, pid, sid, now) => InvEnqueue(s, q, task, name, reason, pid, sid, now);
    case Publish(q, m) => InvPublish(s, q, m);
    case PublishFails(q, compensated, now) => InvPublishFails(s, q, compensated, now);
    case Deliver(m, e) => InvDeliver(s, m, e);
    case DeliverAgain(e, m) => InvDeliverAgain(s, e, m);
    case LoseWorker(e, m) => InvLoseWorker(s, e, m);
    case StartJob(e, now) => InvStartJob(s, e, now);
    case StartJobFails(e) => InvDrop(s, e);
    case ClaimRow(e, pid, sid, now, raised) => InvClaim(s, e, pid, sid, now, raised);
    case ClaimFails(e) => InvClaimFails(s, e);
    case ClaimCommitFails(e, message) => InvClaimCommitFails(s, e, message);
    case SetVersions(e, fetched, id, previousId, raised) => InvSetVersions(s, e, fetched, id, previousId, raised);
    case WorkFails(e, retryable, message) => InvWorkFails(s, e, retryable, message);
    case Finalise(e, findings, ids, now, raised) => InvFinalise(s, e, findings, ids, now, raised);
    case PersistFailure(e, ok, now) => InvPersist(s, e, ok, now);
    case FailJob(e, ok, message, now) => InvFailJob(s, e, ok, message, now);
    case CompleteJob(e, ok, now) => InvCompleteJob(s, e, ok, now);
    case Finish(e, m, republished) => InvFinish(s, e, m, republished);
  }

  lemma {:induction false} InvRun(s: State, steps: seq<Step>)
    requires Inv(s) && ValidRun(s, steps)
    ensures Inv(Run(s, steps))
    decreases |steps|
  {
    hide Inv, Enabled, Next;
    if steps != [] {
      InvNext(s, steps[0]);
      InvRun(Next(s, steps[0]), steps[1..]);
    }
  }

  /** In every reachable state, over all interleavings, no scan row has two owners. */
  lemma ExclusiveOwnership(s: State, e: nat, f: nat)
    requires Reachable(s) && e in s.execs && f in s.execs && e != f
    requires Owns(s.execs[e].stage) && Owns(s.execs[f].stage)
    ensures s.execs[e].stage.scan != s.execs[f].stage.scan
  {
    InvReachable(s);
  }

  lemma InvReachable(s: State)
    requires Reachable(s)
    ensures Inv(s)
  {
    hide Inv;
    var steps :| ValidRun(Init, steps) && Run(Init, steps) == s;
    InvStart();
    InvRun(Init, steps);
  }

  lemma InvStart()
    ensures Inv(Init)
  {
  }
}
