/** When the monitor stops enqueueing a package: ticks of Monitor over the runs of Lifecycle. */
module Settling {
  import opened Wrappers
  import opened Scoring
  import opened Tables
  import opened Transactions
  import opened Lifecycle
  import opened Ownership
  import opened Monitor

  /** `load_package_scan_state` of app/scheduler/main.py */
  function LoadState(db: Db, name: string): PackageScanState {
    if name in db.packageIds && db.packageIds[name] in db.packages then
      PackageScanState(Some(db.packageIds[name]), db.packages[db.packageIds[name]].latestScanned)
    else PackageScanState(None, None)
  }

  function Marker(db: Db, name: string): Option<string> { LoadState(db, name).latestScanned }

  /** What `has_running_scan` of app/scheduler/main.py asks. */
  ghost predicate HasRunning(db: Db, pid: PackageId) {
    exists sid :: sid in db.scans && db.scans[sid].packageId == pid && db.scans[sid].status == Running
  }

  /** The tick is answered from these tables, and the registry's latest version of the package is v. */
  ghost predicate AnsweredFrom(setup: Setup, db: Db, name: string, v: string) {
    && setup.fetch(name) == Ok(Metadata(name, v)) && setup.load(name) == Ok(LoadState(db, name))
    && forall pid :: setup.hasRunning(pid) == Ok(HasRunning(db, pid))
  }

  /**
   A tick that can enqueue does so exactly if the stored version is not v and, where running scans are skipped, the
   package has none running; as new exactly if nothing is stored.
   */
  lemma TickEnqueuesExactly(setup: Setup, db: Db, name: string, v: string)
    requires AnsweredFrom(setup, db, name, v) && setup.enqueue(name).Ok?
    ensures var t, state := ProcessPackage(setup, name, NoTally), LoadState(db, name);
            var running := state.packageId.Some? && HasRunning(db, state.packageId.value);
            && (t.newCount + t.updatedCount == 1 <==> Marker(db, name) != Some(v) && !(setup.skipRunning && running))
            && (t.newCount == 1 ==> Marker(db, name) == None) && (t.updatedCount == 1 ==> Marker(db, name) != None)
            && t.failedCount == 0
  {
  }

  /**
   A tick over these tables, whatever else it meets, does not enqueue the package while the registry's latest is v.
   */
  ghost predicate LeftAlone(db: Db, name: string, v: string) {
    forall setup: Setup ::
      setup.fetch(name) == Ok(Metadata(name, v)) && setup.load(name) == Ok(LoadState(db, name)) ==>
        ProcessPackage(setup, name, NoTally) == NoTally.(checkedCount := 1, unchangedCount := 1)
  }

  lemma LeftAloneIffMarked(db: Db, name: string, v: string)
    ensures LeftAlone(db, name, v) <==> Marker(db, name) == Some(v)
  {
    if Marker(db, name) != Some(v) {
      var setup := Setup([], 1, false, n => Ok(Metadata(name, v)), n => Ok(LoadState(db, name)),
                         p => Ok(false), n => Ok(()));
      assert setup.fetch(name) == Ok(Metadata(name, v)) && setup.load(name) == Ok(LoadState(db, name));
      assert ProcessPackage(setup, name, NoTally).unchangedCount == 0;
    }
  }

  /** The step is the final transaction of a scan of the package that fetched something else than v. */
  predicate Diverges(s: State, step: Step, name: string, v: string) {
    && step.Finalise? && step.e in s.execs && s.execs[step.e].message.name == name
    && s.execs[step.e].stage.Versioned? && s.execs[step.e].stage.latest != v
  }

  lemma UpsertKeepsMarker(db: Db, name: string, pid: PackageId, other: string)
    requires pid !in db.packages && other in db.packageIds && db.packageIds[other] in db.packages
    ensures Marker(UpsertPackage(db, name, pid), other) == Marker(db, other)
  {
  }

  lemma QuietStepsKeepMarkers(s: State, step: Step, name: string)
    requires Enabled(s, step) && !step.Finalise? && !step.Enqueue? && !step.ClaimRow?
    ensures Marker(Next(s, step).db, name) == Marker(s.db, name)
  {
    hide WorkedOn, NextQueued, ClaimTx, EnqueueTx, FinalTx, CompensateTx, StartJobTx, VersionsTx;
    assert Next(s, step).db.packages == s.db.packages && Next(s, step).db.packageIds == s.db.packageIds;
    hide Next, Enabled;
  }

  lemma ClaimKeepsMarker(db: Db, name: string, pid: PackageId, sid: ScanId, now: Time, other: string)
    requires pid !in db.packages && other in db.packageIds && db.packageIds[other] in db.packages
    ensures Marker(ClaimTx(db, name, pid, sid, now).db, other) == Marker(db, other)
  {
    UpsertKeepsMarker(db, name, pid, other);
    hide NextQueued;
  }

  lemma EnqueueKeepsMarker(db: Db, task: TaskId, name: string, reason: string, pid: PackageId, sid: ScanId, now: Time,
                           other: string)
    requires pid !in db.packages && other in db.packageIds && db.packageIds[other] in db.packages
    ensures Marker(EnqueueTx(db, task, name, reason, pid, sid, now), other) == Marker(db, other)
  {
    UpsertKeepsMarker(db, name, pid, other);
  }

  lemma OtherStepsKeepMarkers(s: State, step: Step, name: string)
    requires Inv(s) && Enabled(s, step) && !step.Finalise? && name in s.db.packageIds
    ensures Marker(Next(s, step).db, name) == Marker(s.db, name)
  {
    assert s.db.packageIds[name] in s.db.packages;
    hide Inv, EnqueueTx, ClaimTx, CompensateTx, StartJobTx, VersionsTx, FinalTx, Marker, WorkedOn;
    match step
    case Enqueue(q, task, other, reason, pid, sid, now) =>
      EnqueueKeepsMarker(s.db, task, other, reason, pid, sid, now, name);
    case ClaimRow(e, pid, sid, now, raised) =>
      ClaimKeepsMarker(s.db, s.execs[e].message.name, pid, sid, now, name);
    case _ =>
      QuietStepsKeepMarkers(s, step, name);
      hide Next, Enabled;
  }

  lemma FinaliseMarks(s: State, e: nat, findings: seq<Finding>, ids: seq<FindingId>, now: Time, raised: Option<string>,
                      name: string)
    requires Inv(s) && CanFinalise(s, e, findings, ids) && name in s.db.packageIds
    ensures Marker(OnFinalise(s, e, findings, ids, now, raised).db, name)
            == if s.execs[e].message.name == name then Some(s.execs[e].stage.latest) else Marker(s.db, name)
  {
    var v := s.execs[e].stage;
    FinalTxWrites(s.db, v.pid, v.scan, v.latest, findings, ids, now);
    hide FinalTx;
  }

  /** A step moves the package's marker away from v exactly if it is a diverging final transaction. */
  lemma MarkerMoves(s: State, step: Step, name: string, v: string)
    requires Inv(s) && Enabled(s, step) && Marker(s.db, name) == Some(v)
    ensures Marker(Next(s, step).db, name) == Some(v) <==> !Diverges(s, step, name, v)
  {
    if step.Finalise? {
      FinaliseMarks(s, step.e, step.findings, step.ids, step.now, step.raised, name);
    } else {
      OtherStepsKeepMarkers(s, step, name);
    }
  }

  ghost predicate NeverDiverges(s: State, steps: seq<Step>, name: string, v: string)
    requires ValidRun(s, steps)
    decreases |steps|
  {
    steps == [] || (!Diverges(s, steps[0], name, v) && NeverDiverges(Next(s, steps[0]), steps[1..], name, v))
  }

  /** In no state of the run does a tick enqueue the package. */
  ghost predicate AlwaysLeftAlone(s: State, steps: seq<Step>, name: string, v: string)
    requires ValidRun(s, steps)
    decreases |steps|
  {
    LeftAlone(s.db, name, v) && (steps == [] || AlwaysLeftAlone(Next(s, steps[0]), steps[1..], name, v))
  }

  /**
   While the registry's latest version of a package is v, no tick anywhere in a run enqueues the package, exactly if
   v is what is stored for it at the beginning and every scan of it that completes in the run fetched v.
   */
  lemma {:induction false} Settles(s: State, steps: seq<Step>, name: string, v: string)
    requires Inv(s) && ValidRun(s, steps)
    ensures AlwaysLeftAlone(s, steps, name, v) <==> Marker(s.db, name) == Some(v) && NeverDiverges(s, steps, name, v)
    decreases |steps|
  {
    LeftAloneIffMarked(s.db, name, v);
    hide Inv, Next, Enabled, LeftAlone, Marker, Diverges;
    if steps != [] && Marker(s.db, name) == Some(v) {
      var s' := Next(s, steps[0]);
      InvNext(s, steps[0]);
      MarkerMoves(s, steps[0], name, v);
      Settles(s', steps[1..], name, v);
    }
  }
}
