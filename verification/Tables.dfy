/**
 The database of app/infrastructure/db/models.py and, as functions on its rows, the statements of
 app/infrastructure/db/repositories.py that write it. Every function is one statement (or one short
 repository method) inside a transaction; a ValueError raised by the source is `None`.
 */
module Tables {
  import opened Wrappers
  import opened Scoring
  import opened Paging

  type Time = int
  type PackageId = nat
  type ScanId = nat
  type FindingId = nat
  type TaskId = nat

  datatype Status = Queued | Running | Completed | Failed

  datatype Package = Package(name: string, latestScanned: Option<string>, lastScannedAt: Option<Time>)

  datatype VersionKey = VersionKey(packageId: PackageId, version: string)
  datatype VersionMetadata = VersionMetadata(
    publishedAt: Option<Time>, tarballUrl: string, integrity: Option<string>,
    unpackedSize: Option<int>, fileCount: Option<int>)
  datatype Version = Version(id: nat, metadata: VersionMetadata)

  datatype Scan = Scan(
    packageId: PackageId, latestVersion: Option<string>, previousVersion: Option<string>, status: Status,
    score: Option<int>, risk: RiskLevel, error: Option<string>,
    startedAt: Time, finishedAt: Option<Time>, createdAt: Time)

  datatype FindingRow = FindingRow(id: FindingId, scanId: ScanId, finding: Finding, createdAt: Time)

  datatype JobType = ScanPackageJob | TopPackagesBatchJob
  datatype Job = Job(
    jobType: JobType, packageName: Option<string>, reason: string, status: Status,
    error: Option<string>, startedAt: Option<Time>, finishedAt: Option<Time>)

  /**
   `packageIds` is the unique index on packages.name, `versions` is keyed by its unique constraint and
   `findings` lists its rows in insertion order.
   */
  datatype Db = Db(
    packages: map<PackageId, Package>, packageIds: map<string, PackageId>,
    versions: map<VersionKey, Version>, scans: map<ScanId, Scan>,
    findings: seq<FindingRow>, jobs: map<TaskId, Job>)

  const EmptyDb := Db(map[], map[], map[], map[], [], map[])

  // ---------- packages and versions

  /** Insert-or-touch by name; `newId` is the id the sequence hands out if the row is new. */
  function UpsertPackage(db: Db, name: string, newId: PackageId): Db {
    if name in db.packageIds then db
    else db.(packages := db.packages[newId := Package(name, None, None)],
             packageIds := db.packageIds[name := newId])
  }

  function PackageIdOf(db: Db, name: string, newId: PackageId): PackageId {
    if name in db.packageIds then db.packageIds[name] else newId
  }

  function UpsertVersion(db: Db, pid: PackageId, version: string, metadata: VersionMetadata, newId: nat): Db {
    var key := VersionKey(pid, version);
    db.(versions := db.versions[key := Version(if key in db.versions then db.versions[key].id else newId, metadata)])
  }

  function MarkPackageScanned(db: Db, pid: PackageId, version: string, now: Time): Option<Db> {
    if pid !in db.packages then None
    else Some(db.(packages := db.packages[pid := db.packages[pid].(latestScanned := Some(version),
                                                                     lastScannedAt := Some(now))]))
  }

  // ---------- scan results

  function NewScan(pid: PackageId, status: Status, started: Time, created: Time): Scan {
    Scan(pid, None, None, status, None, Unknown, None, started, None, created)
  }

  /** Only ever called with no versions; started_at and created_at both default to the database clock. */
  function CreateScan(db: Db, pid: PackageId, sid: ScanId, status: Status, now: Time): Db {
    db.(scans := db.scans[sid := NewScan(pid, status, now, now)])
  }

  predicate IsQueued(scans: map<ScanId, Scan>, pid: PackageId, sid: ScanId) {
    sid in scans && scans[sid].packageId == pid && scans[sid].status == Queued
  }

  function QueuedScans(scans: map<ScanId, Scan>, pid: PackageId): set<ScanId> {
    set sid | sid in scans && IsQueued(scans, pid, sid)
  }

  /** ORDER BY created_at, id */
  predicate Before(scans: map<ScanId, Scan>, a: ScanId, b: ScanId)
    requires a in scans && b in scans
  {
    scans[a].createdAt < scans[b].createdAt || (scans[a].createdAt == scans[b].createdAt && a < b)
  }

  predicate IsNextQueued(scans: map<ScanId, Scan>, pid: PackageId, sid: ScanId) {
    && IsQueued(scans, pid, sid)
    && forall other :: other in scans && IsQueued(scans, pid, other) && other != sid ==> Before(scans, sid, other)
  }

  lemma LeastQueuedExists(scans: map<ScanId, Scan>, rows: set<ScanId>)
    requires rows != {} && rows <= scans.Keys
    ensures exists sid :: sid in rows && forall other :: other in rows && other != sid ==> Before(scans, sid, other)
  {
    var before := (a, b) => a in scans && b in scans && Before(scans, a, b);
    assert StrictTotal(before, rows);
    LeastExists(before, rows);
    var sid :| Least(before, rows, sid);
  }

  /** The row the claiming SELECT ... ORDER BY created_at, id LIMIT 1 returns. */
  function NextQueued(scans: map<ScanId, Scan>, pid: PackageId): (r: Option<ScanId>)
    ensures r.None? <==> QueuedScans(scans, pid) == {}
    ensures r.Some? ==> IsNextQueued(scans, pid, r.value)
  {
    var rows := QueuedScans(scans, pid);
    if rows == {} then None
    else
      LeastQueuedExists(scans, rows);
      var sid :| sid in rows && forall other :: other in rows && other != sid ==> Before(scans, sid, other);
      assert forall other :: other in scans && IsQueued(scans, pid, other) ==> other in rows;
      Some(sid)
  }

  function ClaimScan(db: Db, sid: ScanId, now: Time): Db
    requires sid in db.scans
  {
    db.(scans := db.scans[sid :=
      db.scans[sid].(status := Running, startedAt := now, finishedAt := None, error := None)])
  }

  /** Writes nothing when the row is no longer running. */
  function VersionedRow(row: Scan, latest: string, previous: Option<string>): Scan {
    if row.status != Running then row else row.(latestVersion := Some(latest), previousVersion := previous)
  }

  function CompletedRow(row: Scan, score: int, risk: RiskLevel, now: Time): Scan {
    if row.status != Running then row
    else row.(status := Completed, score := Some(score), risk := risk, error := None, finishedAt := Some(now))
  }

  function FailedRow(row: Scan, message: string, now: Time): Scan {
    if row.status != Running then row
    else row.(status := Failed, error := Some(message), finishedAt := Some(now))
  }

  function SetScanVersions(db: Db, sid: ScanId, latest: string, previous: Option<string>): Option<Db> {
    if sid !in db.scans then None
    else Some(db.(scans := db.scans[sid := VersionedRow(db.scans[sid], latest, previous)]))
  }

  function MarkScanCompleted(db: Db, sid: ScanId, score: int, risk: RiskLevel, now: Time): Option<Db> {
    if sid !in db.scans then None
    else Some(db.(scans := db.scans[sid := CompletedRow(db.scans[sid], score, risk, now)]))
  }

  function MarkScanFailed(db: Db, sid: ScanId, message: string, now: Time): Option<Db> {
    if sid !in db.scans then None
    else Some(db.(scans := db.scans[sid := FailedRow(db.scans[sid], message, now)]))
  }

  // ---------- findings

  function FindingRows(sid: ScanId, findings: seq<Finding>, ids: seq<FindingId>, now: Time): seq<FindingRow>
    requires |ids| == |findings|
  {
    seq(|findings|, i requires 0 <= i < |findings| => FindingRow(ids[i], sid, findings[i], now))
  }

  function WithoutScan(rows: seq<FindingRow>, sid: ScanId): seq<FindingRow> {
    if rows == [] then []
    else (if rows[0].scanId == sid then [] else [rows[0]]) + WithoutScan(rows[1..], sid)
  }

  /** The findings stored for a scan, in insertion order. */
  function FindingsOf(rows: seq<FindingRow>, sid: ScanId): seq<Finding> {
    if rows == [] then []
    else (if rows[0].scanId == sid then [rows[0].finding] else []) + FindingsOf(rows[1..], sid)
  }

  /** DELETE then INSERT; the status of the scan is not looked at. */
  function ReplaceFindings(db: Db, sid: ScanId, findings: seq<Finding>, ids: seq<FindingId>, now: Time): Db
    requires |ids| == |findings|
  {
    db.(findings := WithoutScan(db.findings, sid) + FindingRows(sid, findings, ids, now))
  }

  lemma {:induction false} FindingsOfAppend(a: seq<FindingRow>, b: seq<FindingRow>, sid: ScanId)
    ensures FindingsOf(a + b, sid) == FindingsOf(a, sid) + FindingsOf(b, sid)
  {
    if a == [] {
      assert a + b == b;
    } else {
      FindingsOfAppend(a[1..], b, sid);
      var head := if a[0].scanId == sid then [a[0].finding] else [];
      calc {
        FindingsOf(a + b, sid);
        { assert (a + b)[0] == a[0] && (a + b)[1..] == a[1..] + b; }
        head + FindingsOf(a[1..] + b, sid);
        head + (FindingsOf(a[1..], sid) + FindingsOf(b, sid));
        FindingsOf(a, sid) + FindingsOf(b, sid);
      }
    }
  }

  lemma {:induction false} FindingsOfWithout(rows: seq<FindingRow>, sid: ScanId, other: ScanId)
    ensures FindingsOf(WithoutScan(rows, sid), other) == if other == sid then [] else FindingsOf(rows, other)
  {
    if rows == [] {
    } else {
      FindingsOfWithout(rows[1..], sid, other);
      var head := if rows[0].scanId == sid then [] else [rows[0]];
      FindingsOfAppend(head, WithoutScan(rows[1..], sid), other);
    }
  }

  lemma {:induction false} FindingsOfNew(sid: ScanId, findings: seq<Finding>, ids: seq<FindingId>, now: Time,
                                         other: ScanId)
    requires |ids| == |findings|
    ensures FindingsOf(FindingRows(sid, findings, ids, now), other) == if other == sid then findings else []
  {
    if findings == [] {
    } else {
      var rows := FindingRows(sid, findings, ids, now);
      assert rows[1..] == FindingRows(sid, findings[1..], ids[1..], now);
      FindingsOfNew(sid, findings[1..], ids[1..], now, other);
    }
  }

  /** Replacing leaves exactly the new list for the scan and touches no other scan. */
  lemma ReplaceFindingsExact(db: Db, sid: ScanId, findings: seq<Finding>, ids: seq<FindingId>, now: Time, other: ScanId)
    requires |ids| == |findings|
    ensures FindingsOf(ReplaceFindings(db, sid, findings, ids, now).findings, other)
            == if other == sid then findings else FindingsOf(db.findings, other)
  {
    FindingsOfAppend(WithoutScan(db.findings, sid), FindingRows(sid, findings, ids, now), other);
    FindingsOfWithout(db.findings, sid, other);
    FindingsOfNew(sid, findings, ids, now, other);
  }

  // ---------- queue jobs

  /** ON CONFLICT DO NOTHING: an existing row is left as it is. */
  function CreateJob(db: Db, task: TaskId, jobType: JobType, name: Option<string>, reason: string): Db {
    if task in db.jobs then db
    else db.(jobs := db.jobs[task := Job(jobType, name, reason, Queued, None, None, None)])
  }

  function RunningJob(job: Job, now: Time): Job {
    if job.status !in {Queued, Failed} then job
    else job.(status := Running, startedAt := Some(now), error := None, finishedAt := None)
  }

  function CompletedJob(job: Job, now: Time): Job {
    if job.status !in {Queued, Running} then job
    else job.(status := Completed, finishedAt := Some(now), error := None)
  }

  function FailedJob(job: Job, message: string, now: Time): Job {
    if job.status !in {Queued, Running} then job
    else job.(status := Failed, finishedAt := Some(now), error := Some(message))
  }

  function MarkJobRunning(db: Db, task: TaskId, now: Time): Option<Db> {
    if task !in db.jobs then None
    else Some(db.(jobs := db.jobs[task := RunningJob(db.jobs[task], now)]))
  }

  function MarkJobCompleted(db: Db, task: TaskId, now: Time): Option<Db> {
    if task !in db.jobs then None
    else Some(db.(jobs := db.jobs[task := CompletedJob(db.jobs[task], now)]))
  }

  function MarkJobFailed(db: Db, task: TaskId, message: string, now: Time): Option<Db> {
    if task !in db.jobs then None
    else Some(db.(jobs := db.jobs[task := FailedJob(db.jobs[task], message, now)]))
  }

  /** A transaction that raises rolls back. */
  function OrRollback(db: Db, result: Option<Db>): Db {
    match result case Some(after) => after case None => db
  }
}
