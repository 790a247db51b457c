/**
 The repository of app/infrastructure/db/repositories.py: its writing methods, statement by statement, over the rows
 a session sees. Each is proved to do to the tables what the function of Tables says.
 */
module Repository {
  import opened Wrappers
  import opened Scoring
  import T = Tables
  import opened Tables

  /** The rows as one transaction sees them: what was committed when it began, and its own writes. */
  class Session {
    var packages: map<PackageId, Package>
    var packageIds: map<string, PackageId>
    var versions: map<VersionKey, Version>
    var scans: map<ScanId, Scan>
    var findings: seq<FindingRow>
    var jobs: map<TaskId, Job>

    constructor (db: Db)
      ensures Contents() == db
    {
      packages, packageIds, versions := db.packages, db.packageIds, db.versions;
      scans, findings, jobs := db.scans, db.findings, db.jobs;
    }

    function Contents(): Db
      reads this
    {
      Db(packages, packageIds, versions, scans, findings, jobs)
    }
  }

  lemma FirstIsNext(scans: map<ScanId, Scan>, pid: PackageId, id: Option<ScanId>)
    requires id.Some? ==> IsNextQueued(scans, pid, id.value)
    requires id.None? ==> forall other :: other in scans ==> !IsQueued(scans, pid, other)
    ensures id == NextQueued(scans, pid)
  {
    if id.Some? {
      assert id.value in QueuedScans(scans, pid);
      assert IsNextQueued(scans, pid, NextQueued(scans, pid).value);
    } else {
      assert QueuedScans(scans, pid) == {};
    }
  }

  /** A ValueError: the row is not there. */
  datatype NotFound = NotFound

  class SqlAlchemyPackageRepository {
    const session: Session

    constructor (session: Session)
      ensures this.session == session
    {
      this.session := session;
    }

    /** SELECT ... WHERE name = ...; names are unique. */
    method GetByName(name: string) returns (id: Option<PackageId>)
      ensures id.Some? ==> id.value in session.packages && session.packages[id.value].name == name
      ensures id.None? ==> forall p :: p in session.packages ==> session.packages[p].name != name
    {
      var rest := session.packages.Keys;
      while rest != {}
        invariant forall p :: p in session.packages && p !in rest ==> session.packages[p].name != name
        decreases |rest|
      {
        var p :| p in rest;
        rest := rest - {p};
        if p in session.packages && session.packages[p].name == name {
          return Some(p);
        }
      }
      return None;
    }

    /** INSERT ... ON CONFLICT DO UPDATE ... RETURNING; `newId` is the next value of the id sequence. */
    method UpsertPackage(name: string, newId: PackageId) returns (id: PackageId)
      modifies session
      ensures session.Contents() == T.UpsertPackage(old(session.Contents()), name, newId)
      ensures id == PackageIdOf(old(session.Contents()), name, newId)
    {
      if name !in session.packageIds {
        session.packages := session.packages[newId := Package(name, None, None)];
        session.packageIds := session.packageIds[name := newId];
      }
      id := session.packageIds[name];
    }

    method UpsertPackageVersion(packageId: PackageId, version: string, metadata: VersionMetadata, newId: nat)
      modifies session
      ensures session.Contents() == UpsertVersion(old(session.Contents()), packageId, version, metadata, newId)
    {
      var key := VersionKey(packageId, version);
      if key in session.versions {
        session.versions := session.versions[key := session.versions[key].(metadata := metadata)];
      } else {
        session.versions := session.versions[key := Version(newId, metadata)];
      }
    }

    method CreateScanResult(packageId: PackageId, status: Status, newId: ScanId, now: Time) returns (id: ScanId)
      modifies session
      ensures session.Contents() == CreateScan(old(session.Contents()), packageId, newId, status, now) && id == newId
    {
      id := newId;
      session.scans := session.scans[id := Scan(packageId, None, None, status, None, Unknown, None, now, None, now)];
    }

    /** SELECT ... WHERE queued ORDER BY created_at, id LIMIT 1 FOR UPDATE SKIP LOCKED, then an update of that row. */
    method ClaimNextQueuedScan(packageId: PackageId, now: Time) returns (id: Option<ScanId>)
      modifies session
      ensures id == NextQueued(old(session.scans), packageId)
      ensures session.Contents()
              == if id.Some? then ClaimScan(old(session.Contents()), id.value, now) else old(session.Contents())
    {
      id := None;
      var candidates := session.scans.Keys;
      while candidates != {}
        invariant candidates <= session.scans.Keys
        invariant id.Some? ==> id.value in session.scans && IsQueued(session.scans, packageId, id.value)
        invariant forall other :: other in session.scans.Keys - candidates ==>
                    IsQueued(session.scans, packageId, other) ==>
                      id.Some? && (other == id.value || Before(session.scans, id.value, other))
        decreases |candidates|
      {
        var sid :| sid in candidates;
        candidates := candidates - {sid};
        if IsQueued(session.scans, packageId, sid) && (id.None? || Before(session.scans, sid, id.value)) {
          id := Some(sid);
        }
      }
      FirstIsNext(session.scans, packageId, id);
      if id.None? {
        return;
      }
      var scanResult := session.scans[id.value];
      scanResult := scanResult.(status := Running);
      scanResult := scanResult.(startedAt := now);
      scanResult := scanResult.(finishedAt := None);
      scanResult := scanResult.(error := None);
      session.scans := session.scans[id.value := scanResult];
    }

    /** Returns silently, having written nothing, when the row is not running. */
    method SetScanVersions(scanResultId: ScanId, latestVersion: string, previousVersion: Option<string>)
      returns (r: Result<(), NotFound>)
      modifies session
      ensures Outcome(r, old(session.Contents()), session.Contents(),
                      T.SetScanVersions(old(session.Contents()), scanResultId, latestVersion, previousVersion))
    {
      if scanResultId !in session.scans {
        return Err(NotFound);
      }
      var scanResult := session.scans[scanResultId];
      if scanResult.status != Running {
        assert session.scans == session.scans[scanResultId := scanResult];
        return Ok(());
      }
      scanResult := scanResult.(latestVersion := Some(latestVersion), previousVersion := previousVersion);
      session.scans := session.scans[scanResultId := scanResult];
      return Ok(());
    }

    /** UPDATE ... WHERE id = ... AND status = 'running'; only a missing row raises, an unmatched one does not. */
    method MarkScanCompleted(scanResultId: ScanId, score: int, riskLevel: RiskLevel,
                             now: Time)
      returns (r: Result<(), NotFound>)
      modifies session
      ensures Outcome(r, old(session.Contents()), session.Contents(),
                      T.MarkScanCompleted(old(session.Contents()), scanResultId, score, riskLevel, now))
    {
      var rowcount := 0;
      if scanResultId in session.scans && session.scans[scanResultId].status == Running {
        session.scans := session.scans[scanResultId :=
          session.scans[scanResultId].(status := Completed, score := Some(score), risk := riskLevel, error := None,
                                       finishedAt := Some(now))];
        rowcount := 1;
      }
      if rowcount == 0 && scanResultId !in session.scans {
        return Err(NotFound);
      }
      assert rowcount == 0 ==> session.scans == session.scans[scanResultId := session.scans[scanResultId]];
      return Ok(());
    }

    method MarkScanFailed(scanResultId: ScanId, errorMessage: string, now: Time) returns (r: Result<(), NotFound>)
      modifies session
      ensures Outcome(r, old(session.Contents()), session.Contents(),
                      T.MarkScanFailed(old(session.Contents()), scanResultId, errorMessage, now))
    {
      var rowcount := 0;
      if scanResultId in session.scans && session.scans[scanResultId].status == Running {
        session.scans := session.scans[scanResultId :=
          session.scans[scanResultId].(status := Failed, error := Some(errorMessage), finishedAt := Some(now))];
        rowcount := 1;
      }
      if rowcount == 0 && scanResultId !in session.scans {
        return Err(NotFound);
      }
      assert rowcount == 0 ==> session.scans == session.scans[scanResultId := session.scans[scanResultId]];
      return Ok(());
    }

    method AddFindings(scanResultId: ScanId, findings: seq<Finding>, ids: seq<FindingId>, now: Time)
      requires |ids| == |findings|
      modifies session
      ensures session.Contents() == old(session.Contents()).(findings :=
                old(session.findings) + FindingRows(scanResultId, findings, ids, now))
    {
      for i := 0 to |findings|
        invariant session.Contents() == old(session.Contents()).(findings :=
                    old(session.findings) + FindingRows(scanResultId, findings, ids, now)[..i])
      {
        session.findings := session.findings + [FindingRow(ids[i], scanResultId, findings[i], now)];
      }
    }

    /** DELETE, whatever the status of the scan, then the new rows. */
    method ReplaceFindings(scanResultId: ScanId, findings: seq<Finding>, ids: seq<FindingId>, now: Time)
      requires |ids| == |findings|
      modifies session
      ensures session.Contents() == T.ReplaceFindings(old(session.Contents()), scanResultId, findings, ids, now)
    {
      var kept: seq<FindingRow> := [];
      for i := |session.findings| downto 0
        invariant kept == WithoutScan(session.findings[i..], scanResultId)
        invariant session.Contents() == old(session.Contents())
      {
        if session.findings[i].scanId != scanResultId {
          kept := [session.findings[i]] + kept;
        }
        assert session.findings[i..][1..] == session.findings[i + 1..];
      }
      assert session.findings[0..] == session.findings;
      session.findings := kept;
      AddFindings(scanResultId, findings, ids, now);
    }

    method MarkPackageScanned(packageId: PackageId, latestScannedVersion: string,
                              now: Time)
      returns (r: Result<(), NotFound>)
      modifies session
      ensures Outcome(r, old(session.Contents()), session.Contents(),
                      T.MarkPackageScanned(old(session.Contents()), packageId, latestScannedVersion, now))
    {
      if packageId !in session.packages {
        return Err(NotFound);
      }
      var package := session.packages[packageId];
      package := package.(latestScanned := Some(latestScannedVersion));
      package := package.(lastScannedAt := Some(now));
      session.packages := session.packages[packageId := package];
      return Ok(());
    }

    /** SELECT id ... WHERE package_id = ... AND status = 'running' LIMIT 1 */
    method HasRunningScan(packageId: PackageId) returns (running: bool)
      ensures running <==> exists sid :: sid in session.scans && session.scans[sid].packageId == packageId
                                         && session.scans[sid].status == Running
    {
      var rest := session.scans.Keys;
      while rest != {}
        invariant forall sid :: sid in session.scans && sid !in rest ==>
                    session.scans[sid].packageId != packageId || session.scans[sid].status != Running
        decreases |rest|
      {
        var sid :| sid in rest;
        rest := rest - {sid};
        if sid in session.scans && session.scans[sid].packageId == packageId && session.scans[sid].status == Running {
          return true;
        }
      }
      return false;
    }

    /** INSERT ... ON CONFLICT DO NOTHING */
    method CreateQueueJob(taskId: TaskId, jobType: JobType, packageName: Option<string>, reason: string)
      modifies session
      ensures session.Contents() == CreateJob(old(session.Contents()), taskId, jobType, packageName, reason)
    {
      if taskId !in session.jobs {
        session.jobs := session.jobs[taskId := Job(jobType, packageName, reason, Queued, None, None, None)];
      }
    }

    method MarkQueueJobRunning(taskId: TaskId, now: Time) returns (r: Result<(), NotFound>)
      modifies session
      ensures Outcome(r, old(session.Contents()), session.Contents(),
                      MarkJobRunning(old(session.Contents()), taskId, now))
    {
      var rowcount := 0;
      if taskId in session.jobs && (session.jobs[taskId].status == Queued || session.jobs[taskId].status == Failed) {
        session.jobs := session.jobs[taskId :=
          session.jobs[taskId].(status := Running, startedAt := Some(now), error := None, finishedAt := None)];
        rowcount := 1;
      }
      if rowcount == 0 && taskId !in session.jobs {
        return Err(NotFound);
      }
      assert rowcount == 0 ==> session.jobs == session.jobs[taskId := session.jobs[taskId]];
      return Ok(());
    }

    method MarkQueueJobCompleted(taskId: TaskId, now: Time) returns (r: Result<(), NotFound>)
      modifies session
      ensures Outcome(r, old(session.Contents()), session.Contents(),
                      MarkJobCompleted(old(session.Contents()), taskId, now))
    {
      var rowcount := 0;
      if taskId in session.jobs && (session.jobs[taskId].status == Queued || session.jobs[taskId].status == Running) {
        session.jobs := session.jobs[taskId :=
          session.jobs[taskId].(status := Completed, finishedAt := Some(now), error := None)];
        rowcount := 1;
      }
      if rowcount == 0 && taskId !in session.jobs {
        return Err(NotFound);
      }
      assert rowcount == 0 ==> session.jobs == session.jobs[taskId := session.jobs[taskId]];
      return Ok(());
    }

    method MarkQueueJobFailed(taskId: TaskId, errorMessage: string, now: Time) returns (r: Result<(), NotFound>)
      modifies session
      ensures Outcome(r, old(session.Contents()), session.Contents(),
                      MarkJobFailed(old(session.Contents()), taskId, errorMessage, now))
    {
      var rowcount := 0;
      if taskId in session.jobs && (session.jobs[taskId].status == Queued || session.jobs[taskId].status == Running) {
        session.jobs := session.jobs[taskId :=
          session.jobs[taskId].(status := Failed, finishedAt := Some(now), error := Some(errorMessage))];
        rowcount := 1;
      }
      if rowcount == 0 && taskId !in session.jobs {
        return Err(NotFound);
      }
      assert rowcount == 0 ==> session.jobs == session.jobs[taskId := session.jobs[taskId]];
      return Ok(());
    }
  }

  /** The method raised, having written nothing, or left the tables as the specification says. */
  predicate Outcome(r: Result<(), NotFound>, before: Db, after: Db, specified: Option<Db>) {
    match specified
    case Some(db) => r.Ok? && after == db
    case None => r.Err? && after == before
  }
}
