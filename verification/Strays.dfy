/**
 What a strike can spoil, and exactly when it does: the final transaction of a struck scan stores its findings and
 marks its package, although the update of its row matches nothing. The conditions are on that transaction alone.
 */
module Strays {
  import opened Wrappers
  import opened Scoring
  import opened Tables
  import opened Transactions
  import opened Lifecycle
  import opened Ownership
  import opened ScanRows
  import opened Results
  import opened Markers
  import opened OnceOnly

  /** The final transaction that this step is finds its row no longer running. */
  predicate TooLate(s: State, step: Step) {
    && step.Finalise? && step.e in s.execs && s.execs[step.e].stage.Versioned?
    && s.execs[step.e].stage.scan in s.db.scans && s.db.scans[s.execs[step.e].stage.scan].status != Running
  }

  lemma FinaliseIs(s: State, step: Step)
    requires Inv(s) && Enabled(s, step) && step.Finalise?
    ensures CanFinalise(s, step.e, step.findings, step.ids)
    ensures Next(s, step) == OnFinalise(s, step.e, step.findings, step.ids, step.now, step.raised)
    ensures step.e in s.execs && s.execs[step.e].stage.Versioned? && s.execs[step.e].stage.scan in s.db.scans
  {
    Facts(s, step.e);
    hide Inv, OnFinalise, FreshIds;
  }

  // ---------- findings of scans that are not completed

  ghost predicate NoStray(findings: seq<FindingRow>, scans: Scans) {
    forall r :: r in scans && scans[r].status != Completed ==> FindingsOf(findings, r) == []
  }

  predicate Strays(s: State, step: Step) { TooLate(s, step) && step.findings != [] }

  lemma FinaliseStrays(s: State, e: nat, findings: seq<Finding>, ids: seq<FindingId>, now: Time, raised: Option<string>)
    requires Inv(s) && CanFinalise(s, e, findings, ids) && NoStray(s.db.findings, s.db.scans)
    ensures var db' := OnFinalise(s, e, findings, ids, now, raised).db;
            NoStray(db'.findings, db'.scans) <==> findings == [] || s.db.scans[s.execs[e].stage.scan].status == Running
  {
    var v := s.execs[e].stage;
    FinaliseExact(s, e, findings, ids, now, raised);
    Facts(s, e);
    hide Inv;
    FinalTxWrites(s.db, v.pid, v.scan, v.latest, findings, ids, now);
    hide FinalTx, CalculateScore, CalculateRiskLevel;
    var db' := OnFinalise(s, e, findings, ids, now, raised).db;
    forall r | r in s.db.scans && r != v.scan
      ensures r in db'.scans && db'.scans[r] == s.db.scans[r]
      ensures FindingsOf(db'.findings, r) == FindingsOf(s.db.findings, r)
    {
      ReplaceFindingsExact(s.db, v.scan, findings, ids, now, r);
    }
    hide FindingsOf, ReplaceFindings;
  }

  lemma WriteKeepsNoStray(findings: seq<FindingRow>, scans: Scans, scans': Scans, allowed: set<Write>)
    requires NoStray(findings, scans) && FindingsReferToScans(findings, scans)
    requires OneWrite(scans, scans', allowed) && Completion !in allowed
    ensures NoStray(findings, scans')
  {
    if scans' != scans {
      var sid, write :| Written(scans, scans', sid, write);
      if sid !in scans {
        NoFindingsForNewScan(findings, scans, sid);
      }
      hide FindingsOf;
      assert forall r :: r in scans' && r != sid ==> r in scans && scans'[r] == scans[r];
    }
  }

  /**
   A step brings findings to a scan that is not completed exactly if it is a final transaction, too late, with
   findings.
   */
  lemma StrayExact(s: State, step: Step)
    requires Inv(s) && Enabled(s, step) && ResultsOk(s.db.findings, s.db.scans, s.hist.struck)
    requires NoStray(s.db.findings, s.db.scans)
    ensures var db' := Next(s, step).db; NoStray(db'.findings, db'.scans) <==> !Strays(s, step)
  {
    hide Inv, NoStray, OneWrite, FindingsReferToScans, Next, Enabled, OnFinalise, CanFinalise;
    if step.Finalise? {
      FinaliseIs(s, step);
      FinaliseStrays(s, step.e, step.findings, step.ids, step.now, step.raised);
    } else {
      WritesAreLegal(s, step);
      OtherStepsKeepFindings(s, step);
      WriteKeepsNoStray(s.db.findings, s.db.scans, Next(s, step).db.scans, WritesOf(step));
    }
  }

  ghost predicate NeverStrays(s: State, steps: seq<Step>)
    requires ValidRun(s, steps)
    decreases |steps|
  {
    steps == [] || (!Strays(s, steps[0]) && NeverStrays(Next(s, steps[0]), steps[1..]))
  }

  ghost predicate AlwaysNoStray(s: State, steps: seq<Step>)
    requires ValidRun(s, steps)
    decreases |steps|
  {
    NoStray(s.db.findings, s.db.scans) && (steps == [] || AlwaysNoStray(Next(s, steps[0]), steps[1..]))
  }

  /**
   Over a run, only completed scans ever have findings exactly if no final transaction with findings comes too late.
   */
  lemma {:induction false} NoStrayIffNeverStrays(s: State, steps: seq<Step>)
    requires Inv(s) && ResultsOk(s.db.findings, s.db.scans, s.hist.struck) && ValidRun(s, steps)
    requires NoStray(s.db.findings, s.db.scans)
    ensures AlwaysNoStray(s, steps) <==> NeverStrays(s, steps)
    decreases |steps|
  {
    hide Inv, ResultsOk, Next, Enabled, NoStray, Strays;
    if steps != [] {
      var s' := Next(s, steps[0]);
      InvNext(s, steps[0]);
      ResultsNext(s, steps[0]);
      StrayExact(s, steps[0]);
      if NoStray(s'.db.findings, s'.db.scans) {
        NoStrayIffNeverStrays(s', steps[1..]);
      } else {
        assert !AlwaysNoStray(s', steps[1..]);
      }
    }
  }

  lemma NoStrayIffNeverStraysFromStart(steps: seq<Step>)
    requires ValidRun(Init, steps)
    ensures AlwaysNoStray(Init, steps) <==> NeverStrays(Init, steps)
  {
    InvStart();
    hide Inv, Next, Enabled;
    NoStrayIffNeverStrays(Init, steps);
  }

  // ---------- one scan's findings, from the run alone

  predicate StraysFor(s: State, step: Step, sid: ScanId) { Strays(s, step) && s.execs[step.e].stage.scan == sid }

  ghost predicate StraysIn(s: State, steps: seq<Step>, sid: ScanId)
    requires ValidRun(s, steps)
    decreases |steps|
  {
    steps != [] && (StraysFor(s, steps[0], sid) || StraysIn(Next(s, steps[0]), steps[1..], sid))
  }

  /** If the scan has stray findings, nobody will write findings for it again. */
  ghost predicate StraysAreFinal(s: State, sid: ScanId) {
    sid in s.db.scans && s.db.scans[sid].status != Completed && FindingsOf(s.db.findings, sid) != [] ==> LetGo(s, sid)
  }

  lemma OwnFinalise(s: State, step: Step, sid: ScanId)
    requires Inv(s) && Enabled(s, step) && FinishedBy(s, step) == Some(sid) && StraysAreFinal(s, sid)
    requires sid in Next(s, step).db.scans && Next(s, step).db.scans[sid].status != Completed
    ensures FindingsOf(Next(s, step).db.findings, sid) == step.findings && FindingsOf(s.db.findings, sid) == []
    ensures TooLate(s, step) && StraysAreFinal(Next(s, step), sid)
  {
    hide Inv, Next, Enabled, OnFinalise, CanFinalise, LetGo, FindingsOf;
    FinaliseIs(s, step);
    FinaliseExact(s, step.e, step.findings, step.ids, step.now, step.raised);
    FinishLetsGo(s, step, sid);
    RowsMoveForward(s, step, sid);
    if LetGo(s, sid) {
      LetGoStays(s, step, sid);
    }
  }

  lemma FinaliseOfAnother(s: State, step: Step, sid: ScanId)
    requires Inv(s) && Enabled(s, step) && step.Finalise? && FinishedBy(s, step) != Some(sid)
    ensures FindingsOf(Next(s, step).db.findings, sid) == FindingsOf(s.db.findings, sid)
  {
    FinaliseIs(s, step);
    Facts(s, step.e);
    var v := s.execs[step.e].stage;
    hide Inv, Next, Enabled;
    FinalTxWrites(s.db, v.pid, v.scan, v.latest, step.findings, step.ids, step.now);
    ReplaceFindingsExact(s.db, v.scan, step.findings, step.ids, step.now, sid);
    hide FinalTx, FindingsOf, ReplaceFindings, CalculateScore, CalculateRiskLevel;
  }

  lemma AnotherStep(s: State, step: Step, sid: ScanId)
    requires Inv(s) && Enabled(s, step) && FinishedBy(s, step) != Some(sid) && StraysAreFinal(s, sid)
    requires sid in s.db.scans || FindingsOf(s.db.findings, sid) == []
    requires sid in Next(s, step).db.scans && Next(s, step).db.scans[sid].status != Completed
    ensures FindingsOf(Next(s, step).db.findings, sid) == FindingsOf(s.db.findings, sid)
    ensures StraysAreFinal(Next(s, step), sid)
  {
    hide Inv, Next, Enabled, LetGo, FindingsOf, FinishedBy;
    if step.Finalise? {
      FinaliseOfAnother(s, step, sid);
    } else {
      OtherStepsKeepFindings(s, step);
    }
    if sid in s.db.scans {
      RowsMoveForward(s, step, sid);
    }
    if LetGo(s, sid) {
      LetGoStays(s, step, sid);
    }
  }

  lemma OnlyScansHaveFindings(s: State, sid: ScanId)
    requires ResultsOk(s.db.findings, s.db.scans, s.hist.struck)
    ensures sid in s.db.scans || FindingsOf(s.db.findings, sid) == []
  {
    if sid !in s.db.scans {
      NoFindingsForNewScan(s.db.findings, s.db.scans, sid);
    }
  }

  lemma StrayStep(s: State, step: Step, sid: ScanId)
    requires Inv(s) && ResultsOk(s.db.findings, s.db.scans, s.hist.struck) && Enabled(s, step) && StraysAreFinal(s, sid)
    requires sid in Next(s, step).db.scans && Next(s, step).db.scans[sid].status != Completed
    ensures FindingsOf(Next(s, step).db.findings, sid) != [] <==>
              FindingsOf(s.db.findings, sid) != [] || StraysFor(s, step, sid)
    ensures StraysAreFinal(Next(s, step), sid)
  {
    hide Inv, ResultsOk, Next, Enabled, StraysAreFinal, FindingsOf;
    if FinishedBy(s, step) == Some(sid) {
      OwnFinalise(s, step, sid);
    } else {
      OnlyScansHaveFindings(s, sid);
      AnotherStep(s, step, sid);
    }
  }

  lemma {:induction false} StrayRun(s: State, steps: seq<Step>, sid: ScanId)
    requires Inv(s) && ResultsOk(s.db.findings, s.db.scans, s.hist.struck) && ValidRun(s, steps)
    requires StraysAreFinal(s, sid)
    requires sid in Run(s, steps).db.scans && Run(s, steps).db.scans[sid].status != Completed
    ensures FindingsOf(Run(s, steps).db.findings, sid) != [] <==>
              FindingsOf(s.db.findings, sid) != [] || StraysIn(s, steps, sid)
    decreases |steps|
  {
    hide Inv, ResultsOk, Next, Enabled, StraysAreFinal, StraysFor, FindingsOf;
    if steps != [] {
      var s' := Next(s, steps[0]);
      InvNext(s, steps[0]);
      ResultsNext(s, steps[0]);
      if sid in s'.db.scans && s'.db.scans[sid].status != Completed {
        StrayStep(s, steps[0], sid);
        StrayRun(s', steps[1..], sid);
      } else if sid in s'.db.scans {
        TerminalForever(s', steps[1..], sid);
      } else {
        NotThereYet(s, steps[0], sid);
        StrayRun(s', steps[1..], sid);
      }
    }
  }

  /** Nothing is found for a scan before it exists. */
  lemma NotThereYet(s: State, step: Step, sid: ScanId)
    requires Inv(s) && ResultsOk(s.db.findings, s.db.scans, s.hist.struck) && Enabled(s, step)
    requires sid !in Next(s, step).db.scans
    ensures FindingsOf(s.db.findings, sid) == [] && FindingsOf(Next(s, step).db.findings, sid) == []
    ensures !StraysFor(s, step, sid) && StraysAreFinal(Next(s, step), sid)
  {
    ResultsNext(s, step);
    if sid in s.db.scans {
      RowsMoveForward(s, step, sid);
    }
    NoFindingsForNewScan(s.db.findings, s.db.scans, sid);
    NoFindingsForNewScan(Next(s, step).db.findings, Next(s, step).db.scans, sid);
    hide Inv, Next, Enabled, LetGo, FindingsOf;
  }

  /**
   A scan that is not completed at the end of a run has findings exactly if its own final transaction, in that run,
   had some and came too late.
   */
  lemma UnfinishedHasFindingsExactly(steps: seq<Step>, sid: ScanId)
    requires ValidRun(Init, steps)
    requires var db := Run(Init, steps).db; sid in db.scans && db.scans[sid].status != Completed
    ensures FindingsOf(Run(Init, steps).db.findings, sid) != [] <==> StraysIn(Init, steps, sid)
  {
    InvStart();
    hide Inv, Next, Enabled;
    StrayRun(Init, steps, sid);
  }

  // ---------- markers without a completed scan

  ghost predicate CompletedWith(scans: Scans, pid: PackageId, version: string) {
    exists r :: (
      && r in scans && scans[r].packageId == pid && scans[r].status == Completed
      && scans[r].latestVersion == Some(version))
  }

  /** The marker is null iff nothing completed, and otherwise the version of a completed scan. */
  ghost predicate MarkerTrue(packages: Packages, scans: Scans, pid: PackageId) {
    && pid in packages
    && (packages[pid].latestScanned.None? ==> !HasCompletedScan(scans, pid))
    && (packages[pid].latestScanned.Some? ==> CompletedWith(scans, pid, packages[pid].latestScanned.value))
  }

  ghost predicate MarkersTrue(packages: Packages, scans: Scans) {
    forall p :: p in packages ==> MarkerTrue(packages, scans, p)
  }

  /** A final transaction, too late, of a version no completed scan of the package has. */
  ghost predicate Mismarks(s: State, step: Step) {
    TooLate(s, step) && !CompletedWith(s.db.scans, s.execs[step.e].stage.pid, s.execs[step.e].stage.latest)
  }

  lemma RowCompleted(packages: Packages, scans: Scans, sid: ScanId, row: Scan, marked: Package, version: string)
    requires MarkersTrue(packages, scans) && sid in scans && scans[sid].status == Running
    requires row.packageId == scans[sid].packageId && row.status == Completed && row.latestVersion == Some(version)
    requires marked.latestScanned == Some(version)
    ensures MarkersTrue(packages[row.packageId := marked], scans[sid := row])
  {
    var scans' := scans[sid := row];
    assert scans'[sid] == row && CompletedWith(scans', row.packageId, version);
    forall p | p in packages && p != row.packageId
      ensures MarkerTrue(packages[row.packageId := marked], scans', p)
    {
      assert MarkerTrue(packages, scans, p);
      if packages[p].latestScanned.Some? {
        var r :| r in scans && scans[r].packageId == p && scans[r].status == Completed
                 && scans[r].latestVersion == packages[p].latestScanned;
        assert scans'[r] == scans[r];
      }
    }
  }

  lemma OnlyMarked(packages: Packages, scans: Scans, pid: PackageId, marked: Package, version: string)
    requires MarkersTrue(packages, scans) && marked.latestScanned == Some(version)
    ensures MarkersTrue(packages[pid := marked], scans) <==> CompletedWith(scans, pid, version)
  {
    var packages' := packages[pid := marked];
    assert MarkerTrue(packages', scans, pid) <==> CompletedWith(scans, pid, version);
    hide CompletedWith, HasCompletedScan;
    assert forall p :: p in packages && p != pid ==> MarkerTrue(packages, scans, p) && MarkerTrue(packages', scans, p);
  }

  lemma FinaliseMismarks(s: State, e: nat, findings: seq<Finding>, ids: seq<FindingId>, now: Time,
                         raised: Option<string>)
    requires Inv(s) && Known(s) && CanFinalise(s, e, findings, ids) && MarkersTrue(s.db.packages, s.db.scans)
    ensures var v, db' := s.execs[e].stage, OnFinalise(s, e, findings, ids, now, raised).db;
            MarkersTrue(db'.packages, db'.scans) <==>
              s.db.scans[v.scan].status == Running || CompletedWith(s.db.scans, v.pid, v.latest)
  {
    var v := s.execs[e].stage;
    assert StageOk(s.db.packageIds, s.db.scans, s.hist.struck, s.execs[e].message.name, v);
    FinaliseExact(s, e, findings, ids, now, raised);
    Facts(s, e);
    hide Inv, MarkersTrue, CompletedWith;
    FinalTxWrites(s.db, v.pid, v.scan, v.latest, findings, ids, now);
    hide FinalTx, CalculateScore, CalculateRiskLevel, ReplaceFindings, FindingsOf;
    var db' := OnFinalise(s, e, findings, ids, now, raised).db;
    if s.db.scans[v.scan].status == Running {
      VersionOfWorker(s, e);
      hide Known;
      RowCompleted(s.db.packages, s.db.scans, v.scan, db'.scans[v.scan], db'.packages[v.pid], v.latest);
    } else {
      hide Known;
      assert db'.scans == s.db.scans;
      OnlyMarked(s.db.packages, s.db.scans, v.pid, db'.packages[v.pid], v.latest);
    }
  }

  ghost predicate OwnedByPackages(packages: Packages, scans: Scans) {
    forall r :: r in scans ==> scans[r].packageId in packages
  }

  lemma WriteKeepsMarkersTrue(packages: Packages, scans: Scans, packages': Packages, scans': Scans, allowed: set<Write>)
    requires MarkersTrue(packages, scans) && OwnedByPackages(packages, scans) && PackagesKept(packages, packages')
    requires OneWrite(scans, scans', allowed) && Completion !in allowed
    ensures MarkersTrue(packages', scans')
  {
    if scans' != scans {
      var sid, write :| Written(scans, scans', sid, write) && write in allowed;
      assert scans'[sid].status != Completed && (sid in scans ==> scans[sid].status != Completed);
    }
    assert forall r :: r in scans' && scans'[r].status == Completed ==> r in scans && scans[r] == scans'[r];
    assert forall r :: r in scans && scans[r].status == Completed ==> r in scans' && scans[r] == scans'[r];
    hide OneWrite, Written;
    forall p | p in packages'
      ensures MarkerTrue(packages', scans', p)
    {
      if p in packages {
        assert MarkerTrue(packages, scans, p);
      }
    }
  }

  lemma OtherStepsKeepPackages(s: State, step: Step)
    requires Enabled(s, step) && !step.Finalise?
    ensures PackagesKept(s.db.packages, Next(s, step).db.packages)
  {
    hide WorkedOn, FreshIds, EnqueueTx, ClaimTx, CompensateTx, StartJobTx, VersionsTx, FinalTx;
    match step
    case Enqueue(q, task, name, reason, pid, sid, now) => EnqueueLeaves(s.db, task, name, reason, pid, sid, now, {});
    case ClaimRow(e, pid, sid, now, _) => ClaimLeaves(s.db, s.execs[e].message.name, pid, sid, now, {});
    case _ =>
  }

  lemma RowsHavePackages(s: State)
    requires Inv(s)
    ensures OwnedByPackages(s.db.packages, s.db.scans)
  {
  }

  /** A step makes a marker untrue exactly if it is a too late final transaction of a version no completed scan has. */
  lemma MismarkExact(s: State, step: Step)
    requires Inv(s) && Known(s) && Enabled(s, step) && MarkersTrue(s.db.packages, s.db.scans)
    ensures var db' := Next(s, step).db; MarkersTrue(db'.packages, db'.scans) <==> !Mismarks(s, step)
  {
    hide Inv, Known, MarkersTrue, CompletedWith, OneWrite, PackagesKept, OwnedByPackages, Next, Enabled, OnFinalise,
      CanFinalise;
    if step.Finalise? {
      FinaliseIs(s, step);
      FinaliseMismarks(s, step.e, step.findings, step.ids, step.now, step.raised);
    } else {
      RowsHavePackages(s);
      WritesAreLegal(s, step);
      OtherStepsKeepPackages(s, step);
      var db' := Next(s, step).db;
      WriteKeepsMarkersTrue(s.db.packages, s.db.scans, db'.packages, db'.scans, WritesOf(step));
    }
  }

  ghost predicate NeverMismarks(s: State, steps: seq<Step>)
    requires ValidRun(s, steps)
    decreases |steps|
  {
    steps == [] || (!Mismarks(s, steps[0]) && NeverMismarks(Next(s, steps[0]), steps[1..]))
  }

  ghost predicate AlwaysMarkersTrue(s: State, steps: seq<Step>)
    requires ValidRun(s, steps)
    decreases |steps|
  {
    MarkersTrue(s.db.packages, s.db.scans) && (steps == [] || AlwaysMarkersTrue(Next(s, steps[0]), steps[1..]))
  }

  /** Over a run, every marker stays true exactly if no step mismarks. */
  lemma {:induction false} MarkersTrueIffNeverMismarks(s: State, steps: seq<Step>)
    requires Inv(s) && Known(s) && ValidRun(s, steps) && MarkersTrue(s.db.packages, s.db.scans)
    ensures AlwaysMarkersTrue(s, steps) <==> NeverMismarks(s, steps)
    decreases |steps|
  {
    hide Inv, Known, Next, Enabled, MarkersTrue, Mismarks;
    if steps != [] {
      var s' := Next(s, steps[0]);
      InvNext(s, steps[0]);
      KnownNext(s, steps[0]);
      MismarkExact(s, steps[0]);
      if MarkersTrue(s'.db.packages, s'.db.scans) {
        MarkersTrueIffNeverMismarks(s', steps[1..]);
      } else {
        assert !AlwaysMarkersTrue(s', steps[1..]);
      }
    }
  }

  lemma MarkersTrueIffNeverMismarksFromStart(steps: seq<Step>)
    requires ValidRun(Init, steps)
    ensures AlwaysMarkersTrue(Init, steps) <==> NeverMismarks(Init, steps)
  {
    InvStart();
    hide Inv, Next, Enabled;
    MarkersTrueIffNeverMismarks(Init, steps);
  }
}
