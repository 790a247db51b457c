/** What packages.latest_scanned_version and package_versions say about the scans. */
module Markers {
  import opened Wrappers
  import opened Scoring
  import opened Tables
  import opened Transactions
  import opened Lifecycle
  import opened Ownership
  import opened ScanRows
  import opened Strikes

  /** Every final transaction completed its scan, unless the row was struck; and nothing else completes scans. */
  ghost predicate FinalsOk(finals: set<Final>, scans: Scans, struck: set<ScanId>) {
    && (forall f :: f in finals ==> f.scan in scans)
    && (forall f :: f in finals && f.scan in struck ==> f.scan in scans && scans[f.scan].status == Failed)
    && (forall f :: f in finals && f.scan !in struck ==>
          f.scan in scans && scans[f.scan].status == Completed && scans[f.scan].latestVersion == Some(f.latest))
    && (forall r :: r in scans && scans[r].status == Completed ==> exists f :: f in finals && f.scan == r)
  }

  /** The marker is the version of some final transaction of the package, and null iff there was none. */
  ghost predicate MarkersOk(packages: Packages, finals: set<Final>, scans: Scans) {
    && (forall f :: f in finals ==> f.scan in scans && scans[f.scan].packageId in packages)
    && (forall f :: f in finals && f.scan in scans && scans[f.scan].packageId in packages ==>
          packages[scans[f.scan].packageId].latestScanned.Some?)
    && (forall p :: p in packages && packages[p].latestScanned.Some? ==>
          exists f :: (
            && f in finals && f.scan in scans && scans[f.scan].packageId == p
            && packages[p].latestScanned == Some(f.latest)))
  }

  /** A recorded version, and a recorded previous version, have their package_versions rows, and they differ. */
  predicate VersionsKnown(keys: set<VersionKey>, row: Scan) {
    && (row.latestVersion.Some? ==> VersionKey(row.packageId, row.latestVersion.value) in keys)
    && (row.previousVersion.Some? ==>
          && VersionKey(row.packageId, row.previousVersion.value) in keys
          && row.latestVersion.Some? && row.previousVersion != row.latestVersion)
  }

  ghost predicate VersionsOk(keys: set<VersionKey>, scans: Scans) {
    forall r :: r in scans ==> VersionsKnown(keys, scans[r])
  }

  /** An execution past set-versions has its version on its row, unless the row was struck. */
  ghost predicate StagesKnow(execs: Execs, scans: Scans, struck: set<ScanId>, finals: set<Final>) {
    && (forall e :: e in execs && execs[e].stage.Versioned? && execs[e].stage.scan !in struck ==>
          execs[e].stage.scan in scans && scans[execs[e].stage.scan].latestVersion == Some(execs[e].stage.latest))
    && (forall e :: e in execs && execs[e].stage.Committed? ==>
          Final(execs[e].message.task, execs[e].stage.scan, execs[e].stage.latest) in finals)
  }

  ghost predicate Known(s: State) {
    && FinalsOk(s.hist.finals, s.db.scans, s.hist.struck)
    && MarkersOk(s.db.packages, s.hist.finals, s.db.scans)
    && VersionsOk(s.db.versions.Keys, s.db.scans)
    && StagesKnow(s.execs, s.db.scans, s.hist.struck, s.hist.finals)
  }

  // ---------- component steps

  lemma FinalsKept(finals: set<Final>, scans: Scans, struck: set<ScanId>, scans': Scans, struck': set<ScanId>,
                   allowed: set<Write>)
    requires FinalsOk(finals, scans, struck) && struck <= struck'
    requires OneWrite(scans, scans', allowed) && Completion !in allowed
    requires forall r :: r in struck' ==> r in scans' && scans'[r].status == Failed
    ensures FinalsOk(finals, scans', struck')
  {
    forall f | f in finals
      ensures f.scan in scans' && scans'[f.scan] == scans[f.scan]
    {
      WriteMovesForward(scans, scans', allowed, f.scan);
    }
    forall r | r in scans' && scans'[r].status == Completed
      ensures r in scans && scans[r].status == Completed
    {
      if scans' != scans {
        var sid, write :| Written(scans, scans', sid, write) && write in allowed;
      }
    }
  }

  lemma MarkersKept(packages: Packages, finals: set<Final>, scans: Scans, packages': Packages, scans': Scans,
                    allowed: set<Write>)
    requires MarkersOk(packages, finals, scans) && OneWrite(scans, scans', allowed)
    requires forall p :: p in packages ==> p in packages' && packages'[p] == packages[p]
    requires forall p :: p in packages' && p !in packages ==> packages'[p].latestScanned.None?
    ensures MarkersOk(packages', finals, scans')
  {
    forall f | f in finals
      ensures f.scan in scans' && scans'[f.scan].packageId == scans[f.scan].packageId
    {
      WriteMovesForward(scans, scans', allowed, f.scan);
    }
    hide OneWrite;
    forall p | p in packages' && packages'[p].latestScanned.Some?
      ensures exists f :: (
                && f in finals && f.scan in scans' && scans'[f.scan].packageId == p
                && packages'[p].latestScanned == Some(f.latest))
    {
      var f :| f in finals && f.scan in scans && scans[f.scan].packageId == p
               && packages[p].latestScanned == Some(f.latest);
      assert f.scan in scans' && scans'[f.scan].packageId == p;
    }
  }

  /** Only the versions write touches the version columns. */
  lemma VersionsKept(keys: set<VersionKey>, scans: Scans, keys': set<VersionKey>, scans': Scans, allowed: set<Write>)
    requires VersionsOk(keys, scans) && OneWrite(scans, scans', allowed) && keys <= keys'
    requires forall r :: r in scans && r in scans' && scans'[r] != scans[r] ==>
      scans'[r].latestVersion == scans[r].latestVersion && scans'[r].previousVersion == scans[r].previousVersion
    ensures VersionsOk(keys', scans')
  {
    if scans' != scans {
      var sid, write :| Written(scans, scans', sid, write);
      assert forall r :: r in scans' && r != sid ==> r in scans && scans'[r] == scans[r];
    }
  }

  /** Nobody newly claims to know a version, and the versions known stay written. */
  lemma StagesKept(execs: Execs, scans: Scans, struck: set<ScanId>, finals: set<Final>,
                   execs': Execs, scans': Scans, struck': set<ScanId>)
    requires StagesKnow(execs, scans, struck, finals) && struck <= struck'
    requires forall e :: e in execs' && (execs'[e].stage.Versioned? || execs'[e].stage.Committed?) ==>
               e in execs && execs'[e] == execs[e]
    requires forall r :: r in scans && r !in struck' ==>
               r in scans' && scans'[r].latestVersion == scans[r].latestVersion
    ensures StagesKnow(execs', scans', struck', finals)
  {
  }

  /** Packages only appear, unmarked. */
  ghost predicate PackagesKept(packages: Packages, packages': Packages) {
    && (forall p :: p in packages ==> p in packages' && packages'[p] == packages[p])
    && (forall p :: p in packages' && p !in packages ==> packages'[p].latestScanned.None?)
  }

  ghost predicate ColumnsKept(scans: Scans, scans': Scans) {
    forall r :: r in scans ==> r in scans' && scans'[r].latestVersion == scans[r].latestVersion
                               && scans'[r].previousVersion == scans[r].previousVersion
  }

  /** A write of a row that leaves packages, versions, and version columns alone. */
  lemma KnownKept(s: State, s': State, allowed: set<Write>)
    requires Known(s) && s.hist.struck <= s'.hist.struck
    requires OneWrite(s.db.scans, s'.db.scans, allowed) && Completion !in allowed
    requires RowsFailed(s'.hist.struck, s'.db.scans)
    requires s'.hist.finals == s.hist.finals && s'.db.versions == s.db.versions
    requires PackagesKept(s.db.packages, s'.db.packages) && ColumnsKept(s.db.scans, s'.db.scans)
    requires forall e :: e in s'.execs && (s'.execs[e].stage.Versioned? || s'.execs[e].stage.Committed?) ==>
               e in s.execs && s'.execs[e] == s.execs[e]
    ensures Known(s')
  {
    hide OneWrite, FinalsOk, MarkersOk, VersionsOk, StagesKnow;
    FinalsKept(s.hist.finals, s.db.scans, s.hist.struck, s'.db.scans, s'.hist.struck, allowed);
    MarkersKept(s.db.packages, s.hist.finals, s.db.scans, s'.db.packages, s'.db.scans, allowed);
    VersionsKept(s.db.versions.Keys, s.db.scans, s'.db.versions.Keys, s'.db.scans, allowed);
    StagesKept(s.execs, s.db.scans, s.hist.struck, s.hist.finals, s'.execs, s'.db.scans, s'.hist.struck);
  }

  // ---------- every step

  lemma OtherStepsKeepKnown(s: State, step: Step)
    requires Known(s) && Enabled(s, step) && !WritesRows(step)
    ensures Known(Next(s, step))
  {
    hide FinalsOk, MarkersOk, VersionsOk, WorkedOn;
    OtherStepsKeepRows(s, step);
    var s' := Next(s, step);
    StagesKept(s.execs, s.db.scans, s.hist.struck, s.hist.finals, s'.execs, s'.db.scans, s'.hist.struck);
  }

  lemma EnqueueKeepsKnown(s: State, q: nat, task: TaskId, name: string, reason: string, pid: PackageId, sid: ScanId,
                          now: Time)
    requires Inv(s) && Known(s) && CanEnqueue(s, q, task, pid, sid)
    ensures Known(OnEnqueue(s, q, task, name, reason, pid, sid, now))
  {
    hide Inv, Known, OneWrite, EnqueueTx, RowsFailed;
    StruckAreFailed(s);
    EnqueueWrites(s, q, task, name, reason, pid, sid, now);
    EnqueueLeaves(s.db, task, name, reason, pid, sid, now, s.hist.struck);
    hide PackagesKept, ColumnsKept;
    KnownKept(s, OnEnqueue(s, q, task, name, reason, pid, sid, now), {Creation});
  }

  lemma EnqueueLeaves(db: Db, task: TaskId, name: string, reason: string, pid: PackageId, sid: ScanId, now: Time,
                      struck: set<ScanId>)
    requires pid !in db.packages && sid !in db.scans
    ensures var d := EnqueueTx(db, task, name, reason, pid, sid, now);
            && PackagesKept(db.packages, d.packages) && ColumnsKept(db.scans, d.scans)
            && (RowsFailed(struck, db.scans) ==> RowsFailed(struck, d.scans))
  {
  }

  /** A claim touches no known package, and no version column. */
  lemma ClaimLeaves(db: Db, name: string, pid: PackageId, sid: ScanId, now: Time, struck: set<ScanId>)
    requires pid !in db.packages && sid !in db.scans
    ensures var d := ClaimTx(db, name, pid, sid, now).db;
            && PackagesKept(db.packages, d.packages) && ColumnsKept(db.scans, d.scans)
            && (RowsFailed(struck, db.scans) ==> RowsFailed(struck, d.scans))
  {
  }

  lemma ClaimKeepsKnown(s: State, e: nat, pid: PackageId, sid: ScanId, now: Time, raised: Option<string>)
    requires Inv(s) && Known(s) && CanClaim(s, e, pid, sid)
    ensures Known(OnClaim(s, e, pid, sid, now, raised))
  {
    hide Inv, Known, OneWrite, ClaimTx, RowsFailed;
    StruckAreFailed(s);
    ClaimWrites(s, e, pid, sid, now, raised);
    ClaimLeaves(s.db, s.execs[e].message.name, pid, sid, now, s.hist.struck);
    hide PackagesKept, ColumnsKept;
    KnownKept(s, OnClaim(s, e, pid, sid, now, raised), {Creation, Claiming});
  }

  lemma FailureLeaves(packages: Packages, scans: Scans, sid: ScanId, message: string, now: Time)
    ensures PackagesKept(packages, packages) && ColumnsKept(scans, scans)
    ensures sid in scans ==> ColumnsKept(scans, scans[sid := FailedRow(scans[sid], message, now)])
  {
  }

  lemma PublishFailsKeepsKnown(s: State, q: nat, compensated: bool, now: Time)
    requires Inv(s) && Known(s) && q in s.enqueuers
    ensures Known(OnPublishFails(s, q, compensated, now))
  {
    hide Inv, Known, OneWrite, CompensateTx, RowsFailed, WorkedOn, PackagesKept, ColumnsKept;
    EnqueuerFacts(s, q);
    CompensateTxWrites(s.db, s.enqueuers[q].task, s.enqueuers[q].scan, now);
    PublishFailsWrites(s, q, compensated, now);
    InvPublishFails(s, q, compensated, now);
    StruckAreFailed(OnPublishFails(s, q, compensated, now));
    FailureLeaves(s.db.packages, s.db.scans, s.enqueuers[q].scan, UNAVAILABLE, now);
    KnownKept(s, OnPublishFails(s, q, compensated, now), {Failure});
  }

  lemma PersistKeepsKnown(s: State, e: nat, ok: bool, now: Time)
    requires Inv(s) && Known(s) && CanPersist(s, e)
    ensures Known(OnPersist(s, e, ok, now))
  {
    hide Inv, Known, OneWrite, RowsFailed, WorkedOn, PackagesKept, ColumnsKept;
    Facts(s, e);
    PersistWrites(s, e, ok, now);
    InvPersist(s, e, ok, now);
    StruckAreFailed(OnPersist(s, e, ok, now));
    FailureLeaves(s.db.packages, s.db.scans, s.execs[e].stage.scan, s.execs[e].stage.message, now);
    KnownKept(s, OnPersist(s, e, ok, now), {Failure});
  }

  lemma VersionsWritten(keys: set<VersionKey>, scans: Scans, sid: ScanId, fetched: Fetched, keys': set<VersionKey>)
    requires VersionsOk(keys, scans) && keys <= keys' && sid in scans && WellFormed(fetched)
    requires VersionKey(scans[sid].packageId, fetched.latest) in keys'
    requires fetched.previous.Some? ==> VersionKey(scans[sid].packageId, fetched.previous.value.version) in keys'
    ensures VersionsOk(keys', scans[sid := VersionedRow(scans[sid], fetched.latest, PreviousName(fetched))])
  {
  }

  /** The row's owner is the only one to rely on its version columns. */
  lemma OwnerLearns(execs: Execs, scans: Scans, struck: set<ScanId>, finals: set<Final>, sid: ScanId, row: Scan,
                    e: nat, x: Exec, finals': set<Final>)
    requires StagesKnow(execs, scans, struck, finals) && ExclusiveOwners(execs) && finals <= finals'
    requires e in execs && Working(execs[e].stage) && execs[e].stage.scan == sid
    requires x.stage.Versioned? && sid !in struck ==> x.stage.scan == sid && row.latestVersion == Some(x.stage.latest)
    requires x.stage.Versioned? ==> x.stage.scan == sid
    requires x.stage.Committed? ==> Final(x.message.task, x.stage.scan, x.stage.latest) in finals'
    ensures StagesKnow(execs[e := x], scans[sid := row], struck, finals')
  {
  }

  lemma OwnersAreExclusive(s: State)
    requires Inv(s)
    ensures ExclusiveOwners(s.execs)
  {
  }

  lemma SetVersionsKeepsKnown(s: State, e: nat, fetched: Fetched, id: nat, previousId: nat, raised: Option<string>)
    requires Inv(s) && Known(s) && e in s.execs && s.execs[e].stage.Claimed? && WellFormed(fetched)
    ensures Known(OnSetVersions(s, e, fetched, id, previousId, raised))
  {
    hide Inv, OneWrite, FinalsOk, MarkersOk, VersionsOk, StagesKnow, ExclusiveOwners;
    var c := s.execs[e].stage;
    Facts(s, e);
    StruckAreFailed(s);
    OwnersAreExclusive(s);
    SetVersionsWrites(s, e, fetched, id, previousId, raised);
    VersionsTxWrites(s.db, c.pid, c.scan, fetched, id, previousId);
    hide VersionsTx;
    var s' := OnSetVersions(s, e, fetched, id, previousId, raised);
    FinalsKept(s.hist.finals, s.db.scans, s.hist.struck, s'.db.scans, s'.hist.struck, {Versioning});
    MarkersKept(s.db.packages, s.hist.finals, s.db.scans, s'.db.packages, s'.db.scans, {Versioning});
    VersionsWritten(s.db.versions.Keys, s.db.scans, c.scan, fetched, s'.db.versions.Keys);
    OwnerLearns(s.execs, s.db.scans, s.hist.struck, s.hist.finals, c.scan, s'.db.scans[c.scan], e, s'.execs[e],
                s.hist.finals);
  }

  // ---------- the final transaction

  lemma FinalAdded(finals: set<Final>, scans: Scans, struck: set<ScanId>, f: Final, row: Scan)
    requires FinalsOk(finals, scans, struck) && f.scan in scans
    requires if f.scan in struck then row == scans[f.scan] && row.status == Failed
             else scans[f.scan].status == Running && row.status == Completed && row.latestVersion == Some(f.latest)
    ensures FinalsOk(finals + {f}, scans[f.scan := row], struck)
  {
    var finals', scans' := finals + {f}, scans[f.scan := row];
    forall r | r in scans' && scans'[r].status == Completed
      ensures exists g :: g in finals' && g.scan == r
    {
      if r == f.scan {
        assert f in finals';
      } else {
        var g :| g in finals && g.scan == r;
        assert g in finals';
      }
    }
  }

  lemma MarkerSet(packages: Packages, finals: set<Final>, scans: Scans, f: Final, row: Scan, marked: Package)
    requires MarkersOk(packages, finals, scans) && f.scan in scans && row.packageId == scans[f.scan].packageId
    requires scans[f.scan].packageId in packages && marked.latestScanned == Some(f.latest)
    ensures MarkersOk(packages[row.packageId := marked], finals + {f}, scans[f.scan := row])
  {
    var packages', finals', scans' := packages[row.packageId := marked], finals + {f}, scans[f.scan := row];
    forall p | p in packages' && packages'[p].latestScanned.Some?
      ensures exists g :: (
                && g in finals' && g.scan in scans' && scans'[g.scan].packageId == p
                && packages'[p].latestScanned == Some(g.latest))
    {
      if p == row.packageId {
        assert f in finals';
      } else {
        var g :| g in finals && g.scan in scans && scans[g.scan].packageId == p
                 && packages[p].latestScanned == Some(g.latest);
        assert g in finals';
      }
    }
  }

  lemma VersionOfWorker(s: State, e: nat)
    requires Known(s) && e in s.execs && s.execs[e].stage.Versioned? && s.execs[e].stage.scan !in s.hist.struck
    ensures s.execs[e].stage.scan in s.db.scans
    ensures s.db.scans[s.execs[e].stage.scan].latestVersion == Some(s.execs[e].stage.latest)
  {
  }

  lemma FinaliseKeepsKnown(s: State, e: nat, findings: seq<Finding>, ids: seq<FindingId>, now: Time,
                           raised: Option<string>)
    requires Inv(s) && Known(s) && CanFinalise(s, e, findings, ids)
    ensures Known(OnFinalise(s, e, findings, ids, now, raised))
  {
    hide Inv, OneWrite, FinalsOk, MarkersOk, VersionsOk, StagesKnow, ExclusiveOwners, CalculateScore;
    var v := s.execs[e].stage;
    Facts(s, e);
    if v.scan !in s.hist.struck {
      VersionOfWorker(s, e);
    }
    OwnersAreExclusive(s);
    FinaliseWrites(s, e, findings, ids, now, raised);
    FinalTxWrites(s.db, v.pid, v.scan, v.latest, findings, ids, now);
    hide FinalTx;
    var s' := OnFinalise(s, e, findings, ids, now, raised);
    var f := Final(s.execs[e].message.task, v.scan, v.latest);
    var row := s'.db.scans[v.scan];
    FinalAdded(s.hist.finals, s.db.scans, s.hist.struck, f, row);
    MarkerSet(s.db.packages, s.hist.finals, s.db.scans, f, row, s'.db.packages[v.pid]);
    VersionsKept(s.db.versions.Keys, s.db.scans, s'.db.versions.Keys, s'.db.scans, {Completion});
    OwnerLearns(s.execs, s.db.scans, s.hist.struck, s.hist.finals, v.scan, row, e, s'.execs[e], s'.hist.finals);
  }

  lemma KnownNext(s: State, step: Step)
    requires Inv(s) && Known(s) && Enabled(s, step)
    ensures Known(Next(s, step))
  {
    hide Inv, Known;
    match step
    case Enqueue(q, task, name, reason, pid, sid, now) => EnqueueKeepsKnown(s, q, task, name, reason, pid, sid, now);
    case PublishFails(q, compensated, now) => PublishFailsKeepsKnown(s, q, compensated, now);
    case ClaimRow(e, pid, sid, now, raised) => ClaimKeepsKnown(s, e, pid, sid, now, raised);
    case SetVersions(e, fetched, id, previousId, raised) =>
      SetVersionsKeepsKnown(s, e, fetched, id, previousId, raised);
    case Finalise(e, findings, ids, now, raised) => FinaliseKeepsKnown(s, e, findings, ids, now, raised);
    case PersistFailure(e, ok, now) => PersistKeepsKnown(s, e, ok, now);
    case _ => OtherStepsKeepKnown(s, step);
  }

  lemma {:induction false} KnownRun(s: State, steps: seq<Step>)
    requires Inv(s) && Known(s) && ValidRun(s, steps)
    ensures Known(Run(s, steps))
    decreases |steps|
  {
    hide Inv, Known, Next, Enabled;
    if steps != [] {
      InvNext(s, steps[0]);
      KnownNext(s, steps[0]);
      KnownRun(Next(s, steps[0]), steps[1..]);
    }
  }

  lemma KnownReachable(s: State)
    requires Reachable(s)
    ensures Inv(s) && Known(s)
  {
    var steps :| ValidRun(Init, steps) && Run(Init, steps) == s;
    InvStart();
    InvReachable(s);
    hide Inv, Next, Enabled, ValidRun;
    KnownRun(Init, steps);
  }

  // ---------- ids of versions

  ghost predicate DistinctVersionIds(versions: map<VersionKey, Version>) {
    forall a, b :: a in versions && b in versions && versions[a].id == versions[b].id ==> a == b
  }

  lemma SetVersionsKeepsIds(db: Db, pid: PackageId, sid: ScanId, fetched: Fetched, id: nat, previousId: nat)
    requires DistinctVersionIds(db.versions) && UnusedIds(db.versions, id, previousId)
    ensures DistinctVersionIds(OrRollback(db, VersionsTx(db, pid, sid, fetched, id, previousId)).versions)
  {
  }

  lemma OtherStepsKeepVersions(s: State, step: Step)
    requires Enabled(s, step) && !step.SetVersions?
    ensures Next(s, step).db.versions == s.db.versions
  {
    hide WorkedOn, FreshIds, NextQueued, StartJobTx, CompensateTx, ClaimTx, FinalTx, EnqueueTx;
  }

  lemma VersionIdsNext(s: State, step: Step)
    requires Enabled(s, step) && DistinctVersionIds(s.db.versions)
    ensures DistinctVersionIds(Next(s, step).db.versions)
  {
    if step.SetVersions? {
      var c := s.execs[step.e].stage;
      SetVersionsKeepsIds(s.db, c.pid, c.scan, step.fetched, step.id, step.previousId);
      hide VersionsTx, DistinctVersionIds;
    } else {
      OtherStepsKeepVersions(s, step);
    }
  }

  lemma {:induction false} VersionIdsRun(s: State, steps: seq<Step>)
    requires ValidRun(s, steps) && DistinctVersionIds(s.db.versions)
    ensures DistinctVersionIds(Run(s, steps).db.versions)
    decreases |steps|
  {
    hide Next, Enabled, DistinctVersionIds;
    if steps != [] {
      VersionIdsNext(s, steps[0]);
      VersionIdsRun(Next(s, steps[0]), steps[1..]);
    }
  }

  /** In every reachable state no two versions share an id. */
  lemma VersionIdsReachable(s: State)
    requires Reachable(s)
    ensures DistinctVersionIds(s.db.versions)
  {
    var steps :| ValidRun(Init, steps) && Run(Init, steps) == s;
    hide Next, Enabled, ValidRun;
    VersionIdsRun(Init, steps);
  }

  // ---------- what follows in every reachable state

  ghost predicate HasCompletedScan(scans: Scans, pid: PackageId) {
    exists r :: r in scans && scans[r].packageId == pid && scans[r].status == Completed
  }

  /** A final transaction of a scan of the package ran although the row had been failed by someone else. */
  ghost predicate FinishedWhileStruck(s: State, pid: PackageId) {
    exists f :: (
      && f in s.hist.finals && f.scan in s.db.scans && s.db.scans[f.scan].packageId == pid
      && f.scan in s.hist.struck)
  }

  /**
   The marker is set exactly if the package has a completed scan or one that finished while struck, and then it is
   the version fetched by such a scan.
   */
  lemma MarkerSound(s: State, pid: PackageId)
    requires Reachable(s) && pid in s.db.packages
    ensures s.db.packages[pid].latestScanned.Some? <==> HasCompletedScan(s.db.scans, pid) || FinishedWhileStruck(s, pid)
    ensures s.db.packages[pid].latestScanned.Some? ==>
              exists f :: (
                && f in s.hist.finals && f.scan in s.db.scans && s.db.scans[f.scan].packageId == pid
                && s.db.packages[pid].latestScanned == Some(f.latest)
                && (f.scan in s.hist.struck ||
                    (s.db.scans[f.scan].status == Completed && s.db.scans[f.scan].latestVersion == Some(f.latest))))
  {
    KnownReachable(s);
    hide Inv;
    if s.db.packages[pid].latestScanned.Some? {
      var f :| f in s.hist.finals && f.scan in s.db.scans && s.db.scans[f.scan].packageId == pid
               && s.db.packages[pid].latestScanned == Some(f.latest);
      assert f.scan in s.db.scans && s.db.scans[f.scan].packageId == pid;
      assert f.scan in s.hist.struck ==> FinishedWhileStruck(s, pid);
    }
    if r :| r in s.db.scans && s.db.scans[r].packageId == pid && s.db.scans[r].status == Completed {
      var f :| f in s.hist.finals && f.scan == r;
    }
  }

  /**
   Without strikes the marker is null exactly when nothing completed, and otherwise names a completed scan's version.
   */
  lemma MarkerExact(steps: seq<Step>, pid: PackageId)
    requires ValidRun(Init, steps) && StrikeFree(Init, steps)
    requires pid in Run(Init, steps).db.packages
    ensures var db := Run(Init, steps).db;
            && (db.packages[pid].latestScanned.None? <==> !HasCompletedScan(db.scans, pid))
            && (db.packages[pid].latestScanned.Some? ==>
                  exists r :: r in db.scans && db.scans[r].packageId == pid && db.scans[r].status == Completed
                              && db.scans[r].latestVersion == db.packages[pid].latestScanned)
  {
    StruckIffStrike(Init, steps);
    MarkerSound(Run(Init, steps), pid);
  }

  /** A completed scan names its version; that version and the previous one, if any, are stored, and they differ. */
  lemma CompletedScansHaveVersions(s: State, sid: ScanId)
    requires Reachable(s) && sid in s.db.scans && s.db.scans[sid].status == Completed
    ensures s.db.scans[sid].latestVersion.Some?
    ensures VersionsKnown(s.db.versions.Keys, s.db.scans[sid])
  {
    KnownReachable(s);
    hide Inv;
    var f :| f in s.hist.finals && f.scan == sid;
  }
}
