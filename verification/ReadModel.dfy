/** The read queries of app/infrastructure/db/repositories.py, over any tables that satisfy their constraints. */
module ReadModel {
  import opened Wrappers
  import opened Scoring
  import opened Tables
  import opened Lifecycle
  import opened Ownership
  import opened ScanRows
  import opened Strikes
  import opened Results
  import opened Markers
  import opened Strays
  import opened Paging

  // ---------- the window query behind "latest scan"

  /** ORDER BY started_at DESC, id DESC */
  predicate Later(scans: Scans, a: ScanId, b: ScanId)
    requires a in scans && b in scans
  {
    scans[a].startedAt > scans[b].startedAt || (scans[a].startedAt == scans[b].startedAt && a > b)
  }

  /** The rows the window ranks together. */
  function Partition(scans: Scans, pid: PackageId, completedOnly: bool): set<ScanId> {
    set r | r in scans && scans[r].packageId == pid && (completedOnly ==> scans[r].status == Completed)
  }

  /** row_number() OVER (PARTITION BY package_id ORDER BY started_at DESC, id DESC) */
  function RowNumber(scans: Scans, r: ScanId, completedOnly: bool): nat
    requires r in scans
  {
    1 + |set other | other in Partition(scans, scans[r].packageId, completedOnly) && Later(scans, other, r)|
  }

  /** The subquery: the rows ranked first. */
  function LatestScans(scans: Scans, completedOnly: bool): set<ScanId> {
    set r | r in scans && (completedOnly ==> scans[r].status == Completed) && RowNumber(scans, r, completedOnly) == 1
  }

  ghost predicate IsLatest(scans: Scans, pid: PackageId, completedOnly: bool, r: ScanId) {
    && r in Partition(scans, pid, completedOnly)
    && forall other :: other in Partition(scans, pid, completedOnly) && other != r ==> Later(scans, r, other)
  }

  lemma RankedFirst(scans: Scans, pid: PackageId, completedOnly: bool, r: ScanId)
    ensures r in LatestScans(scans, completedOnly) && scans[r].packageId == pid <==>
              IsLatest(scans, pid, completedOnly, r)
  {
    if r in Partition(scans, pid, completedOnly) {
      var above := set other | other in Partition(scans, pid, completedOnly) && Later(scans, other, r);
      assert RowNumber(scans, r, completedOnly) == 1 + |above|;
      if IsLatest(scans, pid, completedOnly, r) {
        assert above == {};
      } else {
        var other :| other in Partition(scans, pid, completedOnly) && other != r && !Later(scans, r, other);
        assert other in above;
      }
    }
  }

  lemma LatestExists(scans: Scans, pid: PackageId, completedOnly: bool)
    requires Partition(scans, pid, completedOnly) != {}
    ensures exists r :: IsLatest(scans, pid, completedOnly, r)
  {
    var rows := Partition(scans, pid, completedOnly);
    var later := (a, b) => a in scans && b in scans && Later(scans, a, b);
    assert StrictTotal(later, rows);
    LeastExists(later, rows);
    var r :| Least(later, rows, r);
    assert IsLatest(scans, pid, completedOnly, r);
  }

  /** The package's row of the subquery, if it has one. */
  ghost function LatestOf(scans: Scans, pid: PackageId, completedOnly: bool): (r: Option<ScanId>)
    ensures r.Some? ==> IsLatest(scans, pid, completedOnly, r.value)
    ensures r.None? <==> Partition(scans, pid, completedOnly) == {}
  {
    if Partition(scans, pid, completedOnly) == {} then None
    else
      LatestExists(scans, pid, completedOnly);
      var r :| IsLatest(scans, pid, completedOnly, r);
      Some(r)
  }

  /**
   The subquery has exactly one row for a package with at least one (completed) scan, its maximum by
   (started_at, id), and none for any other package; so one_or_none never sees two.
   */
  lemma LatestScanIsUnique(scans: Scans, pid: PackageId, completedOnly: bool)
    ensures (set r | r in LatestScans(scans, completedOnly) && scans[r].packageId == pid)
            == match LatestOf(scans, pid, completedOnly) case Some(r) => {r} case None => {}
  {
    forall r
      ensures r in LatestScans(scans, completedOnly) && scans[r].packageId == pid
              <==> LatestOf(scans, pid, completedOnly) == Some(r)
    {
      RankedFirst(scans, pid, completedOnly, r);
    }
  }

  /** Read off the columns: a row of the subquery started after every other, or has the last id of those of then. */
  lemma LatestScanIsGreatest(scans: Scans, pid: PackageId, completedOnly: bool, r: ScanId)
    ensures LatestOf(scans, pid, completedOnly) == Some(r) <==>
              && r in scans && scans[r].packageId == pid && (completedOnly ==> scans[r].status == Completed)
              && forall o :: o in scans && o != r && scans[o].packageId == pid
                             && (completedOnly ==> scans[o].status == Completed) ==>
                   scans[o].startedAt < scans[r].startedAt || (scans[o].startedAt == scans[r].startedAt && o < r)
    ensures r in LatestScans(scans, completedOnly) <==>
              r in scans && LatestOf(scans, scans[r].packageId, completedOnly) == Some(r)
  {
    var latest := LatestOf(scans, pid, completedOnly);
    if latest.Some? {
      assert latest.value in Partition(scans, pid, completedOnly);
    }
    assert forall o :: o in Partition(scans, pid, completedOnly) <==>
             o in scans && scans[o].packageId == pid && (completedOnly ==> scans[o].status == Completed);
    if r in scans {
      LatestScanIsUnique(scans, scans[r].packageId, completedOnly);
      var own := set o | o in LatestScans(scans, completedOnly) && scans[o].packageId == scans[r].packageId;
      assert r in own <==> r in LatestScans(scans, completedOnly);
    }
    hide LatestScans, Partition;
  }

  // ---------- list_packages

  /** One row of the joined query: a package, its row of the outer join, its row of the risk join if there is one. */
  datatype PackageRow = PackageRow(pid: PackageId, latest: Option<ScanId>, completed: Option<ScanId>)

  /** No name filter, or any predicate ILIKE may be; no risk filter, or a level. */
  datatype PackageFilters = PackageFilters(name: Option<string -> bool>, risk: Option<RiskLevel>)

  predicate NameMatches(filter: Option<string -> bool>, name: string) {
    filter.Some? ==> filter.value(name)
  }

  /** LEFT OUTER JOIN latest_scan */
  predicate OuterJoined(scans: Scans, pid: PackageId, latest: Option<ScanId>) {
    match latest
    case Some(r) => r in LatestScans(scans, false) && scans[r].packageId == pid
    case None => forall r :: r in LatestScans(scans, false) ==> scans[r].packageId != pid
  }

  /** JOIN latest_completed_scan WHERE risk_level = ..., only when filtering by risk. */
  predicate RiskJoined(scans: Scans, pid: PackageId, completed: Option<ScanId>, risk: Option<RiskLevel>) {
    match risk
    case None => completed.None?
    case Some(level) =>
      && completed.Some? && completed.value in LatestScans(scans, true)
      && scans[completed.value].packageId == pid && scans[completed.value].risk == level
  }

  function Maybe(ids: set<ScanId>): set<Option<ScanId>> {
    {None} + set r | r in ids :: Some(r)
  }

  /** The rows of the page query, before ordering. */
  function PackageRows(db: Db, filters: PackageFilters): set<PackageRow> {
    set pid, latest, completed |
      && pid in db.packages && latest in Maybe(db.scans.Keys) && completed in Maybe(db.scans.Keys)
      && NameMatches(filters.name, db.packages[pid].name)
      && OuterJoined(db.scans, pid, latest) && RiskJoined(db.scans, pid, completed, filters.risk)
      :: PackageRow(pid, latest, completed)
  }

  /** The packages the count query counts: no joins, an IN subquery instead. */
  function CountedPackages(db: Db, filters: PackageFilters): set<PackageId> {
    set pid |
      && pid in db.packages && NameMatches(filters.name, db.packages[pid].name)
      && (filters.risk.Some? ==>
            pid in set r | r in LatestScans(db.scans, true) && db.scans[r].risk == filters.risk.value
                   :: db.scans[r].packageId)
  }

  ghost function RowOfPackage(db: Db, filters: PackageFilters, pid: PackageId): PackageRow {
    PackageRow(pid, LatestOf(db.scans, pid, false), if filters.risk.Some? then LatestOf(db.scans, pid, true) else None)
  }

  lemma OuterJoinIsLatest(scans: Scans, pid: PackageId, latest: Option<ScanId>)
    ensures OuterJoined(scans, pid, latest) <==> latest == LatestOf(scans, pid, false)
  {
    LatestScanIsUnique(scans, pid, false);
    var rows := set r | r in LatestScans(scans, false) && scans[r].packageId == pid;
    match latest
    case Some(r) => assert OuterJoined(scans, pid, latest) <==> r in rows;
    case None =>
      if r :| r in LatestScans(scans, false) && scans[r].packageId == pid {
        assert r in rows;
      } else {
        assert rows == {};
      }
  }

  lemma RiskJoinIsLatest(scans: Scans, pid: PackageId, level: RiskLevel, completed: Option<ScanId>)
    ensures RiskJoined(scans, pid, completed, Some(level)) <==>
            completed == LatestOf(scans, pid, true) && completed.Some? && scans[completed.value].risk == level
  {
    LatestScanIsUnique(scans, pid, true);
    var rows := set r | r in LatestScans(scans, true) && scans[r].packageId == pid;
    if completed.Some? {
      assert completed.value in rows <==>
               completed.value in LatestScans(scans, true) && scans[completed.value].packageId == pid;
    }
  }

  lemma CountedMeaning(db: Db, filters: PackageFilters, pid: PackageId)
    ensures pid in CountedPackages(db, filters) <==>
            && pid in db.packages && (filters.name.Some? ==> filters.name.value(db.packages[pid].name))
            && (filters.risk.Some? ==>
                  var c := LatestOf(db.scans, pid, true); c.Some? && db.scans[c.value].risk == filters.risk.value)
  {
    if filters.risk.Some? && pid in db.packages {
      var level := filters.risk.value;
      var c := LatestOf(db.scans, pid, true);
      RiskJoinIsLatest(db.scans, pid, level, c);
      if pid in CountedPackages(db, filters) {
        var r :| r in LatestScans(db.scans, true) && db.scans[r].risk == level && db.scans[r].packageId == pid;
        RiskJoinIsLatest(db.scans, pid, level, Some(r));
      }
      if c.Some? && db.scans[c.value].risk == level {
        assert c.value in LatestScans(db.scans, true) && db.scans[c.value].packageId == pid;
      }
    }
  }

  /** The page query and the count query agree: every counted package has exactly one row, and no other has any. */
  lemma PackageRowsAreCounted(db: Db, filters: PackageFilters)
    ensures PackageRows(db, filters) == set pid | pid in CountedPackages(db, filters) :: RowOfPackage(db, filters, pid)
    ensures |PackageRows(db, filters)| == |CountedPackages(db, filters)|
    ensures forall x, y :: x in PackageRows(db, filters) && y in PackageRows(db, filters) && x.pid == y.pid ==> x == y
  {
    var rows := set pid | pid in CountedPackages(db, filters) :: RowOfPackage(db, filters, pid);
    forall row
      ensures row in PackageRows(db, filters) <==> row in rows
    {
      CountedMeaning(db, filters, row.pid);
      OuterJoinIsLatest(db.scans, row.pid, row.latest);
      if filters.risk.Some? {
        RiskJoinIsLatest(db.scans, row.pid, filters.risk.value, row.completed);
      }
      assert row in rows <==> row.pid in CountedPackages(db, filters) && row == RowOfPackage(db, filters, row.pid);
      assert forall r :: r in db.scans ==> Some(r) in Maybe(db.scans.Keys);
    }
    var f := pid => RowOfPackage(db, filters, pid);
    ImageCount(CountedPackages(db, filters), f);
    assert rows == Image(CountedPackages(db, filters), f);
  }

  /** ORDER BY last_scanned_at DESC NULLS LAST, name ASC; names are ordered by whatever collation is in force. */
  predicate PackageBefore(db: Db, collation: (string, string) -> bool, a: PackageRow, b: PackageRow) {
    && a.pid in db.packages && b.pid in db.packages
    && var x, y := db.packages[a.pid], db.packages[b.pid];
       if x.lastScannedAt == y.lastScannedAt then collation(x.name, y.name)
       else y.lastScannedAt.None? || (x.lastScannedAt.Some? && x.lastScannedAt.value > y.lastScannedAt.value)
  }

  ghost predicate UniqueNames(packages: Packages) {
    forall p, q :: p in packages && q in packages && packages[p].name == packages[q].name ==> p == q
  }

  lemma PackageBeforeTransitive(db: Db, collation: (string, string) -> bool, a: PackageRow, b: PackageRow,
                                c: PackageRow)
    requires StrictTotal(collation, set p | p in db.packages :: db.packages[p].name)
    requires PackageBefore(db, collation, a, b) && PackageBefore(db, collation, b, c)
    ensures PackageBefore(db, collation, a, c)
  {
    var names := set p | p in db.packages :: db.packages[p].name;
    assert db.packages[a.pid].name in names && db.packages[b.pid].name in names && db.packages[c.pid].name in names;
  }

  lemma PackageBeforeTotal(db: Db, collation: (string, string) -> bool, a: PackageRow, b: PackageRow)
    requires UniqueNames(db.packages) && StrictTotal(collation, set p | p in db.packages :: db.packages[p].name)
    requires a.pid in db.packages && b.pid in db.packages
    ensures !PackageBefore(db, collation, a, a)
    ensures a.pid != b.pid ==> PackageBefore(db, collation, a, b) || PackageBefore(db, collation, b, a)
  {
    var names := set p | p in db.packages :: db.packages[p].name;
    assert db.packages[a.pid].name in names && db.packages[b.pid].name in names;
  }

  lemma PackageOrderIsTotal(db: Db, collation: (string, string) -> bool, filters: PackageFilters)
    requires UniqueNames(db.packages) && StrictTotal(collation, set p | p in db.packages :: db.packages[p].name)
    ensures StrictTotal((a, b) => PackageBefore(db, collation, a, b), PackageRows(db, filters))
  {
    PackageRowsAreCounted(db, filters);
    var rows := PackageRows(db, filters);
    assert forall row :: row in rows ==> row.pid in db.packages;
    hide PackageRows, PackageBefore, UniqueNames;
    forall a, b | a in rows && b in rows
      ensures !PackageBefore(db, collation, a, a)
      ensures a != b ==> PackageBefore(db, collation, a, b) || PackageBefore(db, collation, b, a)
    {
      PackageBeforeTotal(db, collation, a, b);
    }
    forall a, b, c | PackageBefore(db, collation, a, b) && PackageBefore(db, collation, b, c)
      ensures PackageBefore(db, collation, a, c)
    {
      PackageBeforeTransitive(db, collation, a, b, c);
    }
  }

  ghost function ListPackages(db: Db, collation: (string, string) -> bool, filters: PackageFilters): seq<PackageRow>
    requires UniqueNames(db.packages) && StrictTotal(collation, set p | p in db.packages :: db.packages[p].name)
  {
    PackageOrderIsTotal(db, collation, filters);
    Sorted((a, b) => PackageBefore(db, collation, a, b), PackageRows(db, filters))
  }

  /** `total` is the length of the whole listing, and its pages put together are the listing, each package once. */
  lemma PackagePagesAgree(db: Db, collation: (string, string) -> bool, filters: PackageFilters, limit: nat, n: nat)
    requires UniqueNames(db.packages) && StrictTotal(collation, set p | p in db.packages :: db.packages[p].name)
    requires limit > 0 && n * limit >= |CountedPackages(db, filters)|
    ensures var all := ListPackages(db, collation, filters);
            && |all| == |CountedPackages(db, filters)| && Pages(all, limit, n) == all
            && (forall i, j :: 0 <= i < j < |all| ==> all[i].pid != all[j].pid)
            && (forall pid :: pid in CountedPackages(db, filters) ==> RowOfPackage(db, filters, pid) in all)
  {
    var all := ListPackages(db, collation, filters);
    PackageOrderIsTotal(db, collation, filters);
    PackageRowsAreCounted(db, filters);
    PagesCoverAll(all, limit, n);
    forall i, j | 0 <= i < j < |all|
      ensures all[i].pid != all[j].pid
    {
      assert PackageBefore(db, collation, all[i], all[j]) && all[i] in all && all[j] in all;
      assert !PackageBefore(db, collation, all[i], all[i]);
    }
  }

  /** The listing's order: last scanned first, packages never scanned at the end, those scanned together by name. */
  lemma PackageListingOrder(db: Db, collation: (string, string) -> bool, filters: PackageFilters, i: nat, j: nat)
    requires UniqueNames(db.packages) && StrictTotal(collation, set p | p in db.packages :: db.packages[p].name)
    requires i < j < |ListPackages(db, collation, filters)|
    ensures var all := ListPackages(db, collation, filters);
            && all[i].pid in db.packages && all[j].pid in db.packages
            && var x, y := db.packages[all[i].pid], db.packages[all[j].pid];
               && (x.lastScannedAt.None? ==> y.lastScannedAt.None?)
               && (x.lastScannedAt.Some? && y.lastScannedAt.Some? ==> x.lastScannedAt.value >= y.lastScannedAt.value)
               && (x.lastScannedAt == y.lastScannedAt ==> collation(x.name, y.name))
  {
    PackageOrderIsTotal(db, collation, filters);
    var all := ListPackages(db, collation, filters);
    assert PackageBefore(db, collation, all[i], all[j]);
    hide ListPackages;
  }

  // ---------- list_package_versions, list_scan_results, list_findings

  function VersionRows(versions: map<VersionKey, Version>, pid: PackageId): set<VersionKey> {
    set key | key in versions && key.packageId == pid
  }

  /** ORDER BY published_at DESC NULLS LAST, id DESC */
  predicate VersionBefore(versions: map<VersionKey, Version>, a: VersionKey, b: VersionKey) {
    && a in versions && b in versions
    && var x, y := versions[a], versions[b];
       if x.metadata.publishedAt == y.metadata.publishedAt then x.id > y.id
       else y.metadata.publishedAt.None?
            || (x.metadata.publishedAt.Some? && x.metadata.publishedAt.value > y.metadata.publishedAt.value)
  }

  lemma VersionOrderIsTotal(versions: map<VersionKey, Version>, pid: PackageId)
    requires DistinctVersionIds(versions)
    ensures StrictTotal((a, b) => VersionBefore(versions, a, b), VersionRows(versions, pid))
  {
  }

  lemma VersionPagesAgree(versions: map<VersionKey, Version>, pid: PackageId, limit: nat, n: nat)
    requires DistinctVersionIds(versions)
    requires limit > 0 && n * limit >= |VersionRows(versions, pid)|
    ensures StrictTotal((a, b) => VersionBefore(versions, a, b), VersionRows(versions, pid))
    ensures var all := Sorted((a, b) => VersionBefore(versions, a, b), VersionRows(versions, pid));
            |all| == |VersionRows(versions, pid)| && Pages(all, limit, n) == all
  {
    VersionOrderIsTotal(versions, pid);
    hide StrictTotal;
    PagesCoverAll(Sorted((a, b) => VersionBefore(versions, a, b), VersionRows(versions, pid)), limit, n);
  }

  /** The listing: the package's versions, last published first, those without a time at the end, then by last id. */
  lemma VersionListingOrder(versions: map<VersionKey, Version>, pid: PackageId, i: nat, j: nat)
    requires DistinctVersionIds(versions) && i < j < |VersionRows(versions, pid)|
    ensures StrictTotal((a, b) => VersionBefore(versions, a, b), VersionRows(versions, pid))
    ensures var all := Sorted((a, b) => VersionBefore(versions, a, b), VersionRows(versions, pid));
            && (forall key :: key in all <==> key in versions && key.packageId == pid)
            && all[i] in versions && all[j] in versions
            && var x, y := versions[all[i]], versions[all[j]];
               && (x.metadata.publishedAt.None? ==> y.metadata.publishedAt.None?)
               && (x.metadata.publishedAt.Some? && y.metadata.publishedAt.Some? ==>
                     x.metadata.publishedAt.value >= y.metadata.publishedAt.value)
               && (x.metadata.publishedAt == y.metadata.publishedAt ==> x.id > y.id)
  {
    VersionOrderIsTotal(versions, pid);
    var all := Sorted((a, b) => VersionBefore(versions, a, b), VersionRows(versions, pid));
    hide StrictTotal;
    assert forall key :: key in all <==> key in VersionRows(versions, pid);
    assert VersionBefore(versions, all[i], all[j]);
  }

  /** A scan joined with its package. */
  datatype JoinedScan = JoinedScan(scan: ScanId, pid: PackageId)
  datatype ScanFilters = ScanFilters(status: Option<Status>, risk: Option<RiskLevel>, name: Option<string -> bool>)

  predicate ScanMatches(db: Db, filters: ScanFilters, row: JoinedScan)
    requires row.scan in db.scans && row.pid in db.packages
  {
    && (filters.status.Some? ==> db.scans[row.scan].status == filters.status.value)
    && (filters.risk.Some? ==> db.scans[row.scan].risk == filters.risk.value)
    && NameMatches(filters.name, db.packages[row.pid].name)
  }

  function JoinedScans(db: Db, filters: ScanFilters): set<JoinedScan> {
    set r, p | r in db.scans && p in db.packages && db.scans[r].packageId == p
               && ScanMatches(db, filters, JoinedScan(r, p))
      :: JoinedScan(r, p)
  }

  /** The scans a caller means: those whose own columns and whose package's name match. */
  function MatchingScans(db: Db, filters: ScanFilters): set<ScanId> {
    set r | r in db.scans && db.scans[r].packageId in db.packages
            && ScanMatches(db, filters, JoinedScan(r, db.scans[r].packageId))
  }

  predicate ScanBefore(scans: Scans, a: JoinedScan, b: JoinedScan) {
    a.scan in scans && b.scan in scans && Later(scans, a.scan, b.scan)
  }

  lemma JoinKeepsScans(db: Db, filters: ScanFilters)
    ensures |JoinedScans(db, filters)| == |MatchingScans(db, filters)|
    ensures forall r :: r in MatchingScans(db, filters) ==>
              JoinedScan(r, db.scans[r].packageId) in JoinedScans(db, filters)
  {
    var f := (r: ScanId) => JoinedScan(r, if r in db.scans then db.scans[r].packageId else 0);
    ImageCount(MatchingScans(db, filters), f);
    var image := Image(MatchingScans(db, filters), f);
    forall row
      ensures row in JoinedScans(db, filters) <==> row in image
    {
      if row in JoinedScans(db, filters) {
        assert row.scan in MatchingScans(db, filters) && row == f(row.scan);
      }
    }
    assert JoinedScans(db, filters) == image;
  }

  lemma ScanOrderIsTotal(db: Db, filters: ScanFilters)
    ensures StrictTotal((a, b) => ScanBefore(db.scans, a, b), JoinedScans(db, filters))
  {
    assert forall row :: row in JoinedScans(db, filters) ==>
             row.scan in db.scans && row.pid == db.scans[row.scan].packageId;
    hide JoinedScans;
  }

  /** The join neither drops nor repeats a scan, and pages cover the listing in one strict order. */
  lemma ScanPagesAgree(db: Db, filters: ScanFilters, limit: nat, n: nat)
    requires limit > 0 && n * limit >= |JoinedScans(db, filters)|
    ensures |JoinedScans(db, filters)| == |MatchingScans(db, filters)|
    ensures StrictTotal((a, b) => ScanBefore(db.scans, a, b), JoinedScans(db, filters))
    ensures var all := Sorted((a, b) => ScanBefore(db.scans, a, b), JoinedScans(db, filters));
            && |all| == |JoinedScans(db, filters)| && Pages(all, limit, n) == all
            && (forall r :: r in MatchingScans(db, filters) ==> JoinedScan(r, db.scans[r].packageId) in all)
  {
    JoinKeepsScans(db, filters);
    ScanOrderIsTotal(db, filters);
    hide JoinedScans, MatchingScans, StrictTotal;
    PagesCoverAll(Sorted((a, b) => ScanBefore(db.scans, a, b), JoinedScans(db, filters)), limit, n);
  }

  /** Which rows the listing has: read off the columns of the scan and its package. */
  lemma ScanListingMeaning(db: Db, filters: ScanFilters, r: ScanId, p: PackageId)
    ensures JoinedScan(r, p) in JoinedScans(db, filters) <==>
              && r in db.scans && p in db.packages && db.scans[r].packageId == p
              && (filters.status == None || filters.status == Some(db.scans[r].status))
              && (filters.risk == None || filters.risk == Some(db.scans[r].risk))
              && (filters.name.Some? ==> filters.name.value(db.packages[p].name))
    ensures r in MatchingScans(db, filters) <==>
              r in db.scans && JoinedScan(r, db.scans[r].packageId) in JoinedScans(db, filters)
  {
  }

  /** Its order: last started first, then by last id. */
  lemma ScanListingOrder(db: Db, filters: ScanFilters, i: nat, j: nat)
    requires i < j < |JoinedScans(db, filters)|
    ensures StrictTotal((a, b) => ScanBefore(db.scans, a, b), JoinedScans(db, filters))
    ensures var all := Sorted((a, b) => ScanBefore(db.scans, a, b), JoinedScans(db, filters));
            && all[i].scan in db.scans && all[j].scan in db.scans
            && db.scans[all[i].scan].startedAt >= db.scans[all[j].scan].startedAt
            && (db.scans[all[i].scan].startedAt == db.scans[all[j].scan].startedAt ==> all[i].scan > all[j].scan)
  {
    ScanOrderIsTotal(db, filters);
    hide StrictTotal, JoinedScans;
    var before := (a, b) => ScanBefore(db.scans, a, b);
    var all := Sorted(before, JoinedScans(db, filters));
    assert before(all[i], all[j]);
  }

  datatype FindingFilters = FindingFilters(severity: Option<Severity>, findingType: Option<FindingType>,
    name: Option<string -> bool>)

  /** A finding joined with its scan and that scan's package. */
  datatype JoinedFinding = JoinedFinding(row: FindingRow, pid: PackageId)

  predicate FindingMatches(db: Db, filters: FindingFilters, j: JoinedFinding)
    requires j.pid in db.packages
  {
    && (filters.severity.Some? ==> j.row.finding.severity == filters.severity.value)
    && (filters.findingType.Some? ==> j.row.finding.findingType == filters.findingType.value)
    && NameMatches(filters.name, db.packages[j.pid].name)
  }

  function FindingTable(db: Db): set<FindingRow> {
    set row | row in db.findings
  }

  function JoinedFindings(db: Db, filters: FindingFilters): set<JoinedFinding> {
    set row, r, p |
      && row in FindingTable(db) && r in db.scans && row.scanId == r && p in db.packages && db.scans[r].packageId == p
      && FindingMatches(db, filters, JoinedFinding(row, p))
      :: JoinedFinding(row, p)
  }

  function MatchingFindings(db: Db, filters: FindingFilters): set<FindingRow> {
    set row | row in FindingTable(db) && row.scanId in db.scans && db.scans[row.scanId].packageId in db.packages
              && FindingMatches(db, filters, JoinedFinding(row, db.scans[row.scanId].packageId))
  }

  /** ORDER BY created_at DESC, id DESC */
  predicate FindingBefore(a: JoinedFinding, b: JoinedFinding) {
    a.row.createdAt > b.row.createdAt || (a.row.createdAt == b.row.createdAt && a.row.id > b.row.id)
  }

  lemma JoinsKeepFindings(db: Db, filters: FindingFilters)
    ensures |JoinedFindings(db, filters)| == |MatchingFindings(db, filters)|
    ensures forall row :: row in MatchingFindings(db, filters) ==>
              JoinedFinding(row, db.scans[row.scanId].packageId) in JoinedFindings(db, filters)
  {
    var f := (row: FindingRow) =>
      JoinedFinding(row, if row.scanId in db.scans then db.scans[row.scanId].packageId else 0);
    ImageCount(MatchingFindings(db, filters), f);
    var image := Image(MatchingFindings(db, filters), f);
    forall j
      ensures j in JoinedFindings(db, filters) <==> j in image
    {
      if j in JoinedFindings(db, filters) {
        assert j.row in MatchingFindings(db, filters) && j == f(j.row);
      }
    }
    assert JoinedFindings(db, filters) == image;
  }

  lemma FindingOrderIsTotal(db: Db, filters: FindingFilters)
    requires DistinctIds(db.findings)
    ensures StrictTotal(FindingBefore, JoinedFindings(db, filters))
  {
    assert forall j :: j in JoinedFindings(db, filters) ==>
             j.row in db.findings && j.row.scanId in db.scans && j.pid == db.scans[j.row.scanId].packageId;
    hide JoinedFindings;
    forall a, b | a in JoinedFindings(db, filters) && b in JoinedFindings(db, filters) && a != b
      ensures FindingBefore(a, b) || FindingBefore(b, a)
    {
      var i :| 0 <= i < |db.findings| && db.findings[i] == a.row;
      var k :| 0 <= k < |db.findings| && db.findings[k] == b.row;
      assert i != k;
    }
  }

  /** The two joins neither drop nor repeat a finding, and pages cover the listing in one strict order. */
  lemma FindingPagesAgree(db: Db, filters: FindingFilters, limit: nat, n: nat)
    requires DistinctIds(db.findings)
    requires limit > 0 && n * limit >= |JoinedFindings(db, filters)|
    ensures |JoinedFindings(db, filters)| == |MatchingFindings(db, filters)|
    ensures StrictTotal(FindingBefore, JoinedFindings(db, filters))
    ensures var all := Sorted(FindingBefore, JoinedFindings(db, filters));
            && |all| == |JoinedFindings(db, filters)| && Pages(all, limit, n) == all
            && (forall row :: row in MatchingFindings(db, filters) ==>
                  JoinedFinding(row, db.scans[row.scanId].packageId) in all)
  {
    JoinsKeepFindings(db, filters);
    FindingOrderIsTotal(db, filters);
    hide JoinedFindings, MatchingFindings, StrictTotal;
    PagesCoverAll(Sorted(FindingBefore, JoinedFindings(db, filters)), limit, n);
  }

  /** Which rows the listing has: read off the columns of the finding and the name of its scan's package. */
  lemma FindingListingMeaning(db: Db, filters: FindingFilters, row: FindingRow, p: PackageId)
    ensures JoinedFinding(row, p) in JoinedFindings(db, filters) <==>
              && row in db.findings && row.scanId in db.scans && db.scans[row.scanId].packageId == p && p in db.packages
              && (filters.severity == None || filters.severity == Some(row.finding.severity))
              && (filters.findingType == None || filters.findingType == Some(row.finding.findingType))
              && (filters.name.Some? ==> filters.name.value(db.packages[p].name))
    ensures row in MatchingFindings(db, filters) <==>
              && row.scanId in db.scans
              && JoinedFinding(row, db.scans[row.scanId].packageId) in JoinedFindings(db, filters)
  {
  }

  /** Its order: last created first, then by last id. */
  lemma FindingListingOrder(db: Db, filters: FindingFilters, i: nat, j: nat)
    requires DistinctIds(db.findings) && i < j < |JoinedFindings(db, filters)|
    ensures StrictTotal(FindingBefore, JoinedFindings(db, filters))
    ensures var all := Sorted(FindingBefore, JoinedFindings(db, filters));
            && all[i].row.createdAt >= all[j].row.createdAt
            && (all[i].row.createdAt == all[j].row.createdAt ==> all[i].row.id > all[j].row.id)
  {
    FindingOrderIsTotal(db, filters);
    hide StrictTotal, JoinedFindings;
    var all := Sorted(FindingBefore, JoinedFindings(db, filters));
    assert FindingBefore(all[i], all[j]);
  }

  const ALL_SCANS := ScanFilters(None, None, None)
  const ALL_FINDINGS := FindingFilters(None, None, None)

  lemma {:induction false} DistinctRowsCount(findings: seq<FindingRow>)
    requires DistinctIds(findings)
    ensures |set row | row in findings| == |findings|
  {
    if findings != [] {
      var rest := findings[1..];
      DistinctRowsCount(rest);
      assert (set row | row in findings) == {findings[0]} + set row | row in rest;
    }
  }

  /**
   In every reachable state the tables meet what the listings need, and unfiltered listings show every scan and
   finding.
   */
  lemma ListingsDropNothing(s: State)
    requires Reachable(s)
    ensures UniqueNames(s.db.packages) && DistinctVersionIds(s.db.versions) && DistinctIds(s.db.findings)
    ensures |JoinedScans(s.db, ALL_SCANS)| == |s.db.scans|
    ensures |JoinedFindings(s.db, ALL_FINDINGS)| == |s.db.findings|
  {
    var db := s.db;
    InvReachable(s);
    assert forall p :: p in db.packages ==>
             db.packages[p].name in db.packageIds && db.packageIds[db.packages[p].name] == p;
    assert forall r :: r in db.scans ==> db.scans[r].packageId in db.packages;
    ResultsReachable(s);
    VersionIdsReachable(s);
    hide Reachable, Inv, DistinctVersionIds;
    DistinctRowsCount(db.findings);
    JoinKeepsScans(db, ALL_SCANS);
    assert MatchingScans(db, ALL_SCANS) == db.scans.Keys;
    JoinsKeepFindings(db, ALL_FINDINGS);
    assert MatchingFindings(db, ALL_FINDINGS) == FindingTable(db);
  }

  // ---------- get_package_detail

  /** SELECT count(*) FROM findings JOIN scan_results ... WHERE package_id = ... */
  function FindingsCount(findings: seq<FindingRow>, scans: Scans, pid: PackageId): nat {
    if findings == [] then 0
    else (if findings[0].scanId in scans && scans[findings[0].scanId].packageId == pid then 1 else 0)
         + FindingsCount(findings[1..], scans, pid)
  }

  /** The findings of some scans, scan by scan. */
  ghost function FindingsTotal(findings: seq<FindingRow>, scanIds: set<ScanId>): nat
    decreases |scanIds|
  {
    if scanIds == {} then 0
    else
      var r :| r in scanIds;
      |FindingsOf(findings, r)| + FindingsTotal(findings, scanIds - {r})
  }

  lemma {:induction false} FindingsTotalTail(findings: seq<FindingRow>, scanIds: set<ScanId>)
    requires findings != []
    ensures FindingsTotal(findings, scanIds)
            == FindingsTotal(findings[1..], scanIds) + if findings[0].scanId in scanIds then 1 else 0
    decreases |scanIds|
  {
    if scanIds != {} {
      var r :| r in scanIds
             && FindingsTotal(findings, scanIds) == |FindingsOf(findings, r)| + FindingsTotal(findings, scanIds - {r});
      FindingsTotalTail(findings, scanIds - {r});
      FindingsTotalPick(findings[1..], scanIds, r);
      assert |FindingsOf(findings, r)| == |FindingsOf(findings[1..], r)| + if findings[0].scanId == r then 1 else 0;
      hide FindingsTotal;
    }
  }

  lemma {:induction false} FindingsTotalPick(findings: seq<FindingRow>, scanIds: set<ScanId>, r: ScanId)
    requires r in scanIds
    ensures FindingsTotal(findings, scanIds) == |FindingsOf(findings, r)| + FindingsTotal(findings, scanIds - {r})
    decreases |scanIds|
  {
    var x :| x in scanIds
             && FindingsTotal(findings, scanIds) == |FindingsOf(findings, x)| + FindingsTotal(findings, scanIds - {x});
    if x != r {
      FindingsTotalPick(findings, scanIds - {x}, r);
      FindingsTotalPick(findings, scanIds - {r}, x);
      assert scanIds - {x} - {r} == scanIds - {r} - {x};
    }
  }

  lemma {:induction false} NoFindingsNoTotal(findings: seq<FindingRow>, scanIds: set<ScanId>)
    requires forall r :: r in scanIds ==> FindingsOf(findings, r) == []
    ensures FindingsTotal(findings, scanIds) == 0
    decreases |scanIds|
  {
    if scanIds != {} {
      var r :| r in scanIds
             && FindingsTotal(findings, scanIds) == |FindingsOf(findings, r)| + FindingsTotal(findings, scanIds - {r});
      NoFindingsNoTotal(findings, scanIds - {r});
    }
  }

  lemma {:induction false} CountIsTotal(findings: seq<FindingRow>, scans: Scans, pid: PackageId)
    ensures FindingsCount(findings, scans, pid) == FindingsTotal(findings, Partition(scans, pid, false))
  {
    if findings == [] {
      NoFindingsNoTotal(findings, Partition(scans, pid, false));
    } else {
      CountIsTotal(findings[1..], scans, pid);
      FindingsTotalTail(findings, Partition(scans, pid, false));
    }
  }

  lemma {:induction false} TotalSplits(findings: seq<FindingRow>, a: set<ScanId>, b: set<ScanId>)
    requires a !! b
    ensures FindingsTotal(findings, a + b) == FindingsTotal(findings, a) + FindingsTotal(findings, b)
    decreases |a|
  {
    if a == {} {
      assert a + b == b;
    } else {
      var r :| r in a;
      FindingsTotalPick(findings, a + b, r);
      FindingsTotalPick(findings, a, r);
      assert a + b - {r} == (a - {r}) + b;
      TotalSplits(findings, a - {r}, b);
    }
  }

  lemma {:induction false} ZeroTotal(findings: seq<FindingRow>, scanIds: set<ScanId>)
    ensures FindingsTotal(findings, scanIds) == 0 <==> forall r :: r in scanIds ==> FindingsOf(findings, r) == []
    decreases |scanIds|
  {
    if scanIds != {} {
      var r :| r in scanIds
             && FindingsTotal(findings, scanIds) == |FindingsOf(findings, r)| + FindingsTotal(findings, scanIds - {r});
      ZeroTotal(findings, scanIds - {r});
    }
  }

  /** findings_count of a package is the findings of its completed scans. */
  ghost predicate CountAgrees(findings: seq<FindingRow>, scans: Scans, pid: PackageId) {
    FindingsCount(findings, scans, pid) == FindingsTotal(findings, Partition(scans, pid, true))
  }

  lemma CountExact(findings: seq<FindingRow>, scans: Scans, pid: PackageId)
    ensures CountAgrees(findings, scans, pid) <==>
            forall r :: r in scans && scans[r].packageId == pid && scans[r].status != Completed ==>
              FindingsOf(findings, r) == []
  {
    var all, completed := Partition(scans, pid, false), Partition(scans, pid, true);
    CountIsTotal(findings, scans, pid);
    ZeroTotal(findings, all - completed);
    TotalSplits(findings, all - completed, completed);
    assert all - completed + completed == all;
    hide FindingsOf, FindingsTotal, FindingsCount;
    assert forall r :: r in all - completed <==>
             r in scans && scans[r].packageId == pid && scans[r].status != Completed;
  }

  ghost predicate CountsAgree(findings: seq<FindingRow>, scans: Scans) {
    forall pid :: CountAgrees(findings, scans, pid)
  }

  /** Over any tables, every package's count agrees exactly if only completed scans have findings. */
  lemma CountsAgreeIffNoStray(findings: seq<FindingRow>, scans: Scans)
    ensures CountsAgree(findings, scans) <==> NoStray(findings, scans)
  {
    forall pid
      ensures CountAgrees(findings, scans, pid) <==>
              forall r :: r in scans && scans[r].packageId == pid && scans[r].status != Completed ==>
                FindingsOf(findings, r) == []
    {
      CountExact(findings, scans, pid);
    }
    hide CountAgrees, FindingsOf;
    assert forall r :: r in scans && CountAgrees(findings, scans, scans[r].packageId) ==>
             scans[r].status == Completed || FindingsOf(findings, r) == [];
  }

  ghost predicate AlwaysCountsAgree(s: State, steps: seq<Step>)
    requires ValidRun(s, steps)
    decreases |steps|
  {
    CountsAgree(s.db.findings, s.db.scans) && (steps == [] || AlwaysCountsAgree(Next(s, steps[0]), steps[1..]))
  }

  lemma {:induction false} AlwaysCountsAgreeIffNoStray(s: State, steps: seq<Step>)
    requires ValidRun(s, steps)
    ensures AlwaysCountsAgree(s, steps) <==> AlwaysNoStray(s, steps)
    decreases |steps|
  {
    CountsAgreeIffNoStray(s.db.findings, s.db.scans);
    hide Next, Enabled, CountsAgree, NoStray;
    if steps != [] {
      AlwaysCountsAgreeIffNoStray(Next(s, steps[0]), steps[1..]);
    }
  }

  /**
   Over a run, findings_count of every package is always the findings of its completed scans exactly if no final
   transaction with findings comes too late.
   */
  lemma DetailCountsExactly(steps: seq<Step>)
    requires ValidRun(Init, steps)
    ensures AlwaysCountsAgree(Init, steps) <==> NeverStrays(Init, steps)
  {
    AlwaysCountsAgreeIffNoStray(Init, steps);
    NoStrayIffNeverStraysFromStart(steps);
  }

  /** In particular at the end of every run without a strike. */
  lemma DetailCountsCompletedFindings(steps: seq<Step>, pid: PackageId)
    requires ValidRun(Init, steps) && StrikeFree(Init, steps)
    ensures var db := Run(Init, steps).db; CountAgrees(db.findings, db.scans, pid)
  {
    var db := Run(Init, steps).db;
    hide ValidRun, StrikeFree, Run, CountAgrees;
    forall r | r in db.scans && db.scans[r].status != Completed
      ensures FindingsOf(db.findings, r) == []
    {
      UnfinishedScansHaveNoFindings(steps, r);
    }
    CountExact(db.findings, db.scans, pid);
  }

  // ---------- the risk filters over reachable states

  function Unnamed(level: RiskLevel): PackageFilters { PackageFilters(None, Some(level)) }

  /** The packages with a completed scan: those the three risk filters share out among them. */
  function ScannedPackages(db: Db): set<PackageId> {
    set pid | pid in db.packages && Partition(db.scans, pid, true) != {}
  }

  /** The risk of a package's latest completed scan, if it has one. */
  ghost function LatestRisk(scans: Scans, pid: PackageId): Option<RiskLevel> {
    match LatestOf(scans, pid, true)
    case Some(r) => Some(scans[r].risk)
    case None => None
  }

  lemma CountedByRisk(db: Db, level: RiskLevel, pid: PackageId)
    ensures pid in CountedPackages(db, Unnamed(level)) <==>
              pid in db.packages && LatestRisk(db.scans, pid) == Some(level)
  {
    CountedMeaning(db, Unnamed(level), pid);
    hide CountedPackages;
  }

  lemma LatestRiskIsKnown(s: State, pid: PackageId)
    requires Reachable(s)
    ensures LatestRisk(s.db.scans, pid) != Some(Unknown)
    ensures LatestRisk(s.db.scans, pid).Some? <==> Partition(s.db.scans, pid, true) != {}
  {
    var c := LatestOf(s.db.scans, pid, true);
    if c.Some? {
      ShapesReachable(s, c.value);
      hide Reachable;
    }
  }

  lemma FourLevels(risk: Option<RiskLevel>)
    ensures risk in {None, Some(Low), Some(Medium), Some(High), Some(Unknown)}
  {
    match risk
    case None =>
    case Some(level) => assert level.Low? || level.Medium? || level.High? || level.Unknown?;
  }

  lemma ThreeWaySplit(low: set<PackageId>, medium: set<PackageId>, high: set<PackageId>, all: set<PackageId>)
    requires low !! medium && low !! high && medium !! high && low + medium + high == all
    ensures |low| + |medium| + |high| == |all|
  {
    assert |low + medium + high| == |low + medium| + |high|;
  }

  /**
   In every reachable state each package with a completed scan is listed under exactly one of low, medium and
   high; under `unknown` nothing is ever listed or counted.
   */
  lemma RiskFiltersPartition(s: State)
    requires Reachable(s)
    ensures |CountedPackages(s.db, Unnamed(Low))| + |CountedPackages(s.db, Unnamed(Medium))|
            + |CountedPackages(s.db, Unnamed(High))| == |ScannedPackages(s.db)|
    ensures PackageRows(s.db, Unnamed(Unknown)) == {} && |CountedPackages(s.db, Unnamed(Unknown))| == 0
  {
    hide Reachable, CountedPackages, LatestRisk, LatestOf, PackageRows;
    var low, medium := CountedPackages(s.db, Unnamed(Low)), CountedPackages(s.db, Unnamed(Medium));
    var high := CountedPackages(s.db, Unnamed(High));
    var unknown := CountedPackages(s.db, Unnamed(Unknown));
    forall pid
      ensures pid in low + medium + high <==> pid in ScannedPackages(s.db)
      ensures !(pid in low && pid in medium) && !(pid in low && pid in high) && !(pid in medium && pid in high)
      ensures pid !in unknown
    {
      CountedByRisk(s.db, Low, pid);
      CountedByRisk(s.db, Medium, pid);
      CountedByRisk(s.db, High, pid);
      CountedByRisk(s.db, Unknown, pid);
      LatestRiskIsKnown(s, pid);
      FourLevels(LatestRisk(s.db.scans, pid));
    }
    ThreeWaySplit(low, medium, high, ScannedPackages(s.db));
    PackageRowsAreCounted(s.db, Unnamed(Unknown));
    assert unknown == {};
  }

  function MarkedPackages(db: Db): set<PackageId> {
    set pid | pid in db.packages && db.packages[pid].latestScanned.Some?
  }

  lemma ScannedHaveCompletedScan(db: Db, pid: PackageId)
    ensures pid in ScannedPackages(db) <==> pid in db.packages && HasCompletedScan(db.scans, pid)
  {
    if HasCompletedScan(db.scans, pid) {
      var r :| r in db.scans && db.scans[r].packageId == pid && db.scans[r].status == Completed;
      assert r in Partition(db.scans, pid, true);
    }
  }

  /** Every scanned package is marked; a marked one is not scanned exactly if its scans all finished while struck. */
  lemma ScannedAndMarked(s: State, pid: PackageId)
    requires Reachable(s) && pid in s.db.packages
    ensures pid in ScannedPackages(s.db) ==> pid in MarkedPackages(s.db)
    ensures pid in MarkedPackages(s.db) && pid !in ScannedPackages(s.db) <==>
            FinishedWhileStruck(s, pid) && !HasCompletedScan(s.db.scans, pid)
  {
    MarkerSound(s, pid);
    ScannedHaveCompletedScan(s.db, pid);
    hide Reachable, FinishedWhileStruck, HasCompletedScan, ScannedPackages;
  }

  /**
   In every reachable state the totals of the three filters sum to the marked packages exactly if each package with
   a scan that finished while struck also has a completed one.
   */
  lemma RiskTotalsCountMarked(s: State)
    requires Reachable(s)
    ensures |CountedPackages(s.db, Unnamed(Low))| + |CountedPackages(s.db, Unnamed(Medium))|
            + |CountedPackages(s.db, Unnamed(High))| == |MarkedPackages(s.db)| <==>
            forall pid :: pid in s.db.packages && FinishedWhileStruck(s, pid) ==> HasCompletedScan(s.db.scans, pid)
  {
    RiskFiltersPartition(s);
    hide CountedPackages;
    var scanned, marked := ScannedPackages(s.db), MarkedPackages(s.db);
    forall pid | pid in s.db.packages
      ensures pid in scanned ==> pid in marked
      ensures pid in marked && pid !in scanned <==> FinishedWhileStruck(s, pid) && !HasCompletedScan(s.db.scans, pid)
    {
      ScannedAndMarked(s, pid);
    }
    hide Reachable, FinishedWhileStruck, HasCompletedScan;
    assert scanned <= marked && marked <= s.db.packages.Keys;
    if |scanned| == |marked| {
      SubsetOfSameSize(scanned, marked);
    }
    if forall pid :: pid in s.db.packages && FinishedWhileStruck(s, pid) ==> HasCompletedScan(s.db.scans, pid) {
      assert scanned == marked;
    }
  }

  lemma SubsetOfSameSize(a: set<PackageId>, b: set<PackageId>)
    requires a <= b && |a| == |b|
    ensures a == b
  {
    assert |b - a| == 0;
  }

  /** Without strikes those are exactly the packages with a scanned-version marker. */
  lemma ScannedPackagesAreMarked(steps: seq<Step>)
    requires ValidRun(Init, steps) && StrikeFree(Init, steps)
    ensures var db := Run(Init, steps).db; ScannedPackages(db) == MarkedPackages(db)
  {
    StruckIffStrike(Init, steps);
    var s := Run(Init, steps);
    assert Reachable(s);
    hide ValidRun, StrikeFree, Run, Reachable;
    forall pid | pid in s.db.packages
      ensures pid in ScannedPackages(s.db) <==> pid in MarkedPackages(s.db)
    {
      ScannedAndMarked(s, pid);
    }
  }
}
