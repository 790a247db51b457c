/**
 The bodies of the `async with unit_of_work()` blocks, as functions from the tables before to the tables after.
 `None` means the block raised; the unit of work then rolls back.
 */
module Transactions {
  import opened Wrappers
  import opened Scoring
  import opened Tables

  datatype PreviousVersion = PreviousVersion(version: string, metadata: VersionMetadata)

  /** What `fetch_metadata` answers. */
  datatype Fetched = Fetched(latest: string, metadata: VersionMetadata, previous: Option<PreviousVersion>)

  function PreviousName(fetched: Fetched): Option<string> {
    match fetched.previous case Some(p) => Some(p.version) case None => None
  }

  /** The registry client never answers the latest version as its own predecessor (see Registry). */
  predicate WellFormed(fetched: Fetched) {
    PreviousName(fetched) != Some(fetched.latest)
  }

  const UNAVAILABLE := "scan queue unavailable"

  function EnqueueTx(db: Db, task: TaskId, name: string, reason: string, pid: PackageId, sid: ScanId,
                     now: Time): (d: Db)
    ensures d.versions == db.versions && d.findings == db.findings
  {
    var d := UpsertPackage(db, name, pid);
    var d := CreateScan(d, PackageIdOf(db, name, pid), sid, Queued, now);
    CreateJob(d, task, ScanPackageJob, Some(name), reason)
  }

  /** What enqueueing does when the broker refuses the message. */
  function CompensateTx(db: Db, task: TaskId, sid: ScanId, now: Time): (r: Option<Db>)
    ensures r.Some? ==> r.value == db.(jobs := r.value.jobs, scans := r.value.scans)
  {
    match MarkJobFailed(db, task, UNAVAILABLE, now)
    case None => None
    case Some(d) => MarkScanFailed(d, sid, UNAVAILABLE, now)
  }

  function StartJobTx(db: Db, task: TaskId, name: string, reason: string, now: Time): (r: Option<Db>)
    ensures r.Some? ==> r.value == db.(jobs := r.value.jobs)
  {
    match MarkJobRunning(db, task, now)
    case Some(d) => Some(d)
    case None => MarkJobRunning(CreateJob(db, task, ScanPackageJob, Some(name), reason), task, now)
  }

  datatype Claim = Claim(db: Db, pid: PackageId, scan: ScanId, fallback: bool)

  /** Claim the oldest queued row of the package, or create a running one. */
  function ClaimTx(db: Db, name: string, newPid: PackageId, newSid: ScanId, now: Time): (c: Claim)
    ensures c.db == db.(packages := c.db.packages, packageIds := c.db.packageIds, scans := c.db.scans)
  {
    var d := UpsertPackage(db, name, newPid);
    var pid := PackageIdOf(db, name, newPid);
    match NextQueued(d.scans, pid)
    case Some(sid) => Claim(ClaimScan(d, sid, now), pid, sid, false)
    case None => Claim(CreateScan(d, pid, newSid, Running, now), pid, newSid, true)
  }

  function VersionsTx(db: Db, pid: PackageId, sid: ScanId, fetched: Fetched, newId: nat,
                      newPreviousId: nat): (r: Option<Db>)
    ensures r.Some? ==> r.value == db.(versions := r.value.versions, scans := r.value.scans)
  {
    var d := UpsertVersion(db, pid, fetched.latest, fetched.metadata, newId);
    var d := match fetched.previous
      case Some(p) => UpsertVersion(d, pid, p.version, p.metadata, newPreviousId)
      case None => d;
    SetScanVersions(d, sid, fetched.latest, PreviousName(fetched))
  }

  function FinalTx(db: Db, pid: PackageId, sid: ScanId, latest: string,
                   findings: seq<Finding>, ids: seq<FindingId>, now: Time): (r: Option<Db>)
    requires |ids| == |findings|
    ensures r.Some? ==>
              r.value == db.(packages := r.value.packages, scans := r.value.scans, findings := r.value.findings)
  {
    var score := CalculateScore(findings);
    var d := ReplaceFindings(db, sid, findings, ids, now);
    match MarkScanCompleted(d, sid, score, CalculateRiskLevel(score), now)
    case None => None
    case Some(d) => MarkPackageScanned(d, pid, latest, now)
  }

  // ---------- what the longer blocks write, table by table

  lemma EnqueueTxWrites(db: Db, task: TaskId, name: string, reason: string, pid: PackageId, sid: ScanId, now: Time)
    requires task !in db.jobs
    ensures var r, d := EnqueueTx(db, task, name, reason, pid, sid, now), UpsertPackage(db, name, pid);
            && r.packages == d.packages && r.packageIds == d.packageIds
            && r.scans == db.scans[sid := NewScan(PackageIdOf(db, name, pid), Queued, now, now)]
            && r.jobs == db.jobs[task := Job(ScanPackageJob, Some(name), reason, Queued, None, None, None)]
  {
  }

  lemma VersionsTxWrites(db: Db, pid: PackageId, sid: ScanId, fetched: Fetched, newId: nat, newPreviousId: nat)
    requires sid in db.scans
    ensures var r := VersionsTx(db, pid, sid, fetched, newId, newPreviousId);
            && r.Some? && r.value.packages == db.packages && r.value.packageIds == db.packageIds
            && r.value.jobs == db.jobs && r.value.findings == db.findings
            && r.value.scans == db.scans[sid := VersionedRow(db.scans[sid], fetched.latest, PreviousName(fetched))]
            && r.value.versions.Keys == db.versions.Keys + {VersionKey(pid, fetched.latest)}
               + (if fetched.previous.Some? then {VersionKey(pid, fetched.previous.value.version)} else {})
  {
  }

  lemma FinalTxWrites(db: Db, pid: PackageId, sid: ScanId, latest: string,
                      findings: seq<Finding>, ids: seq<FindingId>, now: Time)
    requires |ids| == |findings| && sid in db.scans && pid in db.packages
    ensures var r := FinalTx(db, pid, sid, latest, findings, ids, now);
            var score := CalculateScore(findings);
            && r.Some? && r.value.packageIds == db.packageIds
            && r.value.packages == db.packages[pid := db.packages[pid].(latestScanned := Some(latest),
                                                                          lastScannedAt := Some(now))]
            && r.value.jobs == db.jobs && r.value.versions == db.versions
            && r.value.scans == db.scans[sid := CompletedRow(db.scans[sid], score, CalculateRiskLevel(score), now)]
            && r.value.findings == ReplaceFindings(db, sid, findings, ids, now).findings
  {
  }

  lemma CompensateTxWrites(db: Db, task: TaskId, sid: ScanId, now: Time)
    requires sid in db.scans && task in db.jobs
    ensures CompensateTx(db, task, sid, now)
            == Some(db.(jobs := db.jobs[task := FailedJob(db.jobs[task], UNAVAILABLE, now)],
                        scans := db.scans[sid := FailedRow(db.scans[sid], UNAVAILABLE, now)]))
  {
  }

  lemma StartJobTxWrites(db: Db, task: TaskId, name: string, reason: string, now: Time)
    requires task in db.jobs
    ensures StartJobTx(db, task, name, reason, now)
            == Some(db.(jobs := db.jobs[task := RunningJob(db.jobs[task], now)]))
  {
  }
}
