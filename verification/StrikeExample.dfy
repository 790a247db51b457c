/**
 A concrete run in which the compensation of a failed publish strikes a row another execution works on. Two users
 enqueue the same package; the first one's publish is slow, the second one's message is delivered and, rows not
 being tied to messages, claims the first one's row; then the first publish fails.
 */
module StrikeExample {
  import opened Wrappers
  import opened Scoring
  import opened Tables
  import opened Transactions
  import opened Lifecycle
  import opened Strikes
  import opened Markers

  ghost predicate Ran(steps: seq<Step>, s: State) {
    ValidRun(Init, steps) && Run(Init, steps) == s
  }

  lemma Extend(steps: seq<Step>, s: State, step: Step)
    requires Ran(steps, s) && Enabled(s, step)
    ensures Ran(steps + [step], Next(s, step))
  {
    RunAppend(Init, steps, [step]);
    hide Next, Enabled;
    assert ValidRun(s, [step]) && Run(s, [step]) == Next(s, step) by {
      assert [step][1..] == [];
    }
  }

  const PACKAGE := "p"

  function Waiting(created: Time): Scan { NewScan(0, Queued, created, created) }

  predicate SecondJob(jobs: map<TaskId, Job>, status: Status) {
    jobs.Keys == {0, 1} && jobs[1].jobType == ScanPackageJob && jobs[1].status == status
  }

  lemma BothEnqueued() returns (steps: seq<Step>, s: State)
    ensures Ran(steps, s)
    ensures s.db.packages == map[0 := Package(PACKAGE, None, None)] && s.db.packageIds == map[PACKAGE := 0]
    ensures s.db.scans == map[0 := Waiting(0), 1 := Waiting(1)] && s.db.findings == [] && s.db.versions == map[]
    ensures SecondJob(s.db.jobs, Queued)
    ensures s.enqueuers == map[0 := Enqueuer(0, PACKAGE, "", 0), 1 := Enqueuer(1, PACKAGE, "", 1)]
    ensures s.queue == map[] && s.execs == map[] && s.hist == Init.hist
  {
    assert Ran([], Init);
    var first := Enqueue(0, 0, PACKAGE, "", 0, 0, 0);
    Extend([], Init, first);
    var s1 := Next(Init, first);
    var second := Enqueue(1, 1, PACKAGE, "", 1, 1, 1);
    Extend([] + [first], s1, second);
    steps, s := [] + [first] + [second], Next(s1, second);
  }

  lemma SecondDelivered() returns (steps: seq<Step>, s: State)
    ensures Ran(steps, s)
    ensures s.db.packages == map[0 := Package(PACKAGE, None, None)] && s.db.packageIds == map[PACKAGE := 0]
    ensures s.db.scans == map[0 := Waiting(0), 1 := Waiting(1)] && s.db.findings == [] && s.db.versions == map[]
    ensures SecondJob(s.db.jobs, Running)
    ensures s.enqueuers == map[0 := Enqueuer(0, PACKAGE, "", 0)]
    ensures s.execs == map[0 := Exec(Message(1, PACKAGE, "", 0), Started)]
    ensures s.hist.struck == {} && s.hist.finals == {}
  {
    var before, s2 := BothEnqueued();
    hide Ran;
    var publish := Publish(1, 0);
    Extend(before, s2, publish);
    var s3 := Next(s2, publish);
    var deliver := Deliver(0, 0);
    Extend(before + [publish], s3, deliver);
    var s4 := Next(s3, deliver);
    var start := StartJob(0, 2);
    Extend(before + [publish] + [deliver], s4, start);
    steps, s := before + [publish] + [deliver] + [start], Next(s4, start);
  }

  lemma OldestIsNext(scans: map<ScanId, Scan>)
    requires scans == map[0 := Waiting(0), 1 := Waiting(1)]
    ensures NextQueued(scans, 0) == Some(0)
  {
    assert IsQueued(scans, 0, 0) && 0 in QueuedScans(scans, 0) && Before(scans, 0, 1);
  }

  /** The second message's execution claims the first enqueue's row. */
  lemma FirstRowClaimed() returns (steps: seq<Step>, s: State)
    ensures Ran(steps, s)
    ensures s.db.packages == map[0 := Package(PACKAGE, None, None)] && s.db.packageIds == map[PACKAGE := 0]
    ensures s.db.scans.Keys == {0, 1} && s.db.findings == [] && s.db.versions == map[]
    ensures SecondJob(s.db.jobs, Running)
    ensures s.db.scans[0].status == Running && s.db.scans[0].packageId == 0
    ensures s.db.scans[1].status == Queued && s.db.scans[1].packageId == 0
    ensures s.enqueuers == map[0 := Enqueuer(0, PACKAGE, "", 0)]
    ensures s.execs == map[0 := Exec(Message(1, PACKAGE, "", 0), Claimed(0, 0))]
    ensures s.hist.struck == {} && s.hist.finals == {}
  {
    var before, s5 := SecondDelivered();
    hide Ran;
    var claim := ClaimRow(0, 1, 2, 3, None);
    Extend(before, s5, claim);
    OldestIsNext(s5.db.scans);
    hide NextQueued;
    steps, s := before + [claim], Next(s5, claim);
  }

  /** The failed publish then strikes it. */
  lemma FirstRowStruck() returns (steps: seq<Step>, s: State)
    ensures Ran(steps, s) && !WorkersHoldRunningRows(s)
    ensures s.db.packages == map[0 := Package(PACKAGE, None, None)] && s.db.packageIds == map[PACKAGE := 0]
    ensures s.db.scans.Keys == {0, 1} && s.db.findings == [] && s.db.versions == map[]
    ensures SecondJob(s.db.jobs, Running)
    ensures s.db.scans[0].status == Failed && s.db.scans[0].packageId == 0
    ensures s.db.scans[1].status == Queued && s.db.scans[1].packageId == 0
    ensures s.execs == map[0 := Exec(Message(1, PACKAGE, "", 0), Claimed(0, 0))]
    ensures s.hist.finals == {}
  {
    var before, s6 := FirstRowClaimed();
    hide Ran;
    var fail := PublishFails(0, true, 4);
    Extend(before, s6, fail);
    CompensateTxWrites(s6.db, 0, 0, 4);
    hide CompensateTx;
    steps, s := before + [fail], Next(s6, fail);
    assert Working(s.execs[0].stage) && s.execs[0].stage.scan == 0;
  }

  /** Setting the versions then silently writes nothing to the row. */
  lemma VersionsNotWritten() returns (steps: seq<Step>, s: State)
    ensures Ran(steps, s)
    ensures s.db.packages == map[0 := Package(PACKAGE, None, None)]
    ensures s.db.scans.Keys == {0, 1} && s.db.findings == []
    ensures s.db.scans[0].status == Failed && s.db.scans[1].status == Queued
    ensures SecondJob(s.db.jobs, Running) && s.hist.finals == {}
    ensures s.execs == map[0 := Exec(Message(1, PACKAGE, "", 0), Versioned(0, 0, "1.0.0"))]
  {
    var before, s7 := FirstRowStruck();
    hide Ran;
    var fetched := Fetched("1.0.0", VersionMetadata(None, "", None, None, None), None);
    var versions := SetVersions(0, fetched, 0, 1, None);
    Extend(before, s7, versions);
    VersionsTxWrites(s7.db, 0, 0, fetched, 0, 1);
    hide VersionsTx;
    steps, s := before + [versions], Next(s7, versions);
    assert s.db.scans == s7.db.scans;
  }

  /**
   The execution carries on unaware: the failed scan gets its findings, and the package is marked as scanned
   although no scan of it completed.
   */
  lemma StruckScanKeepsFindings(f: Finding) returns (steps: seq<Step>, s: State)
    ensures Ran(steps, s)
    ensures 0 in s.db.scans && s.db.scans[0].status == Failed && FindingsOf(s.db.findings, 0) == [f]
    ensures 0 in s.db.packages && s.db.packages[0].latestScanned.Some? && !HasCompletedScan(s.db.scans, 0)
    ensures s.db.scans.Keys == {0, 1} && s.db.scans[1].status == Queued && SecondJob(s.db.jobs, Running)
    ensures s.execs == map[0 := Exec(Message(1, PACKAGE, "", 0), Committed(0, "1.0.0"))]
    ensures s.hist.finals == {Final(1, 0, "1.0.0")}
  {
    var before, s8 := VersionsNotWritten();
    hide Ran;
    var final := Finalise(0, [f], [0], 5, None);
    Extend(before, s8, final);
    FinalTxWrites(s8.db, 0, 0, "1.0.0", [f], [0], 5);
    ReplaceFindingsExact(s8.db, 0, [f], [0], 5, 0);
    hide FinalTx, FindingsOf, ReplaceFindings;
    steps, s := before + [final], Next(s8, final);
    assert s.db.scans == s8.db.scans;
  }

  /** In the end the job is completed, and no scan is. */
  lemma CompletedJobWithoutScan() returns (steps: seq<Step>, s: State)
    ensures Ran(steps, s) && SecondJob(s.db.jobs, Completed)
    ensures forall r :: r in s.db.scans ==> s.db.scans[r].status != Completed
  {
    var before, s9 := StruckScanKeepsFindings(Finding(ObfuscatedCode, SevHigh, "code", ""));
    hide Ran;
    var complete := CompleteJob(0, true, 6);
    Extend(before, s9, complete);
    steps, s := before + [complete], Next(s9, complete);
  }
}
