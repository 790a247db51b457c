/** How a scan row may change: every step writes at most one row, in one of five ways. */
module ScanRows {
  import opened Wrappers
  import opened Scoring
  import opened Tables
  import opened Transactions
  import opened Lifecycle
  import opened Ownership

  datatype Write = Creation | Claiming | Versioning | Completion | Failure

  /** The write turns the rows `scans` into `scans[sid := row]` the way the named statement does. */
  predicate Legal(scans: Scans, sid: ScanId, row: Scan, write: Write) {
    match write
    case Creation =>
      sid !in scans && row.status in {Queued, Running}
      && row == NewScan(row.packageId, row.status, row.startedAt, row.createdAt)
    case Claiming =>
      && sid in scans && scans[sid].status == Queued
      && row == scans[sid].(status := Running, startedAt := row.startedAt, finishedAt := None, error := None)
    case Versioning =>
      && sid in scans && scans[sid].status == Running && row.latestVersion.Some?
      && row.previousVersion != row.latestVersion
      && row == scans[sid].(latestVersion := row.latestVersion, previousVersion := row.previousVersion)
    case Completion =>
      && sid in scans && scans[sid].status == Running && row.score.Some? && row.finishedAt.Some?
      && row == scans[sid].(status := Completed, score := row.score, risk := CalculateRiskLevel(row.score.value),
                            error := None, finishedAt := row.finishedAt)
    case Failure =>
      && sid in scans && scans[sid].status == Running && row.error.Some? && row.finishedAt.Some?
      && row == scans[sid].(status := Failed, error := row.error, finishedAt := row.finishedAt)
  }

  ghost predicate Written(scans: Scans, scans': Scans, sid: ScanId, write: Write) {
    sid in scans' && scans' == scans[sid := scans'[sid]] && Legal(scans, sid, scans'[sid], write)
  }

  /** The rows after are those before, or differ by one legal write of an allowed kind. */
  ghost predicate OneWrite(scans: Scans, scans': Scans, allowed: set<Write>) {
    scans' == scans || exists sid, write :: Written(scans, scans', sid, write) && write in allowed
  }

  lemma ClaimWrites(s: State, e: nat, pid: PackageId, sid: ScanId, now: Time, raised: Option<string>)
    requires Inv(s) && CanClaim(s, e, pid, sid)
    ensures OneWrite(s.db.scans, OnClaim(s, e, pid, sid, now, raised).db.scans, {Creation, Claiming})
  {
    hide Inv;
    var c := ClaimTx(s.db, s.execs[e].message.name, pid, sid, now);
    assert Written(s.db.scans, c.db.scans, c.scan, if c.fallback then Creation else Claiming);
  }

  lemma EnqueueWrites(s: State, q: nat, task: TaskId, name: string, reason: string, pid: PackageId, sid: ScanId,
                      now: Time)
    requires CanEnqueue(s, q, task, pid, sid)
    ensures OneWrite(s.db.scans, OnEnqueue(s, q, task, name, reason, pid, sid, now).db.scans, {Creation})
  {
    assert Written(s.db.scans, OnEnqueue(s, q, task, name, reason, pid, sid, now).db.scans, sid, Creation);
  }

  lemma FailureWrites(scans: Scans, sid: ScanId, message: string, now: Time)
    requires sid in scans
    ensures OneWrite(scans, scans[sid := FailedRow(scans[sid], message, now)], {Failure})
  {
    assert scans[sid := scans[sid]] == scans;
    assert scans[sid].status == Running ==>
             Written(scans, scans[sid := FailedRow(scans[sid], message, now)], sid, Failure);
  }

  lemma PublishFailsWrites(s: State, q: nat, compensated: bool, now: Time)
    requires Inv(s) && q in s.enqueuers
    ensures OneWrite(s.db.scans, OnPublishFails(s, q, compensated, now).db.scans, {Failure})
  {
    var e := s.enqueuers[q];
    CompensateTxWrites(s.db, e.task, e.scan, now);
    FailureWrites(s.db.scans, e.scan, UNAVAILABLE, now);
    hide Inv, CompensateTx, OneWrite;
  }

  lemma SetVersionsWrites(s: State, e: nat, fetched: Fetched, id: nat, previousId: nat, raised: Option<string>)
    requires Inv(s) && e in s.execs && s.execs[e].stage.Claimed? && WellFormed(fetched)
    ensures OneWrite(s.db.scans, OnSetVersions(s, e, fetched, id, previousId, raised).db.scans, {Versioning})
  {
    Facts(s, e);
    hide Inv;
    var c := s.execs[e].stage;
    VersionsTxWrites(s.db, c.pid, c.scan, fetched, id, previousId);
    hide VersionsTx;
    var scans' := OnSetVersions(s, e, fetched, id, previousId, raised).db.scans;
    assert s.db.scans[c.scan := s.db.scans[c.scan]] == s.db.scans;
    assert s.db.scans[c.scan].status == Running ==> Written(s.db.scans, scans', c.scan, Versioning);
  }

  lemma FinaliseWrites(s: State, e: nat, findings: seq<Finding>, ids: seq<FindingId>, now: Time, raised: Option<string>)
    requires Inv(s) && CanFinalise(s, e, findings, ids)
    ensures OneWrite(s.db.scans, OnFinalise(s, e, findings, ids, now, raised).db.scans, {Completion})
  {
    Facts(s, e);
    hide Inv;
    var v := s.execs[e].stage;
    FinalTxWrites(s.db, v.pid, v.scan, v.latest, findings, ids, now);
    hide FinalTx;
    var scans' := OnFinalise(s, e, findings, ids, now, raised).db.scans;
    assert s.db.scans[v.scan := s.db.scans[v.scan]] == s.db.scans;
    assert s.db.scans[v.scan].status == Running ==> Written(s.db.scans, scans', v.scan, Completion);
  }

  lemma PersistWrites(s: State, e: nat, ok: bool, now: Time)
    requires Inv(s) && CanPersist(s, e)
    ensures OneWrite(s.db.scans, OnPersist(s, e, ok, now).db.scans, {Failure})
  {
    Facts(s, e);
    hide Inv;
    var f := s.execs[e].stage;
    FailureWrites(s.db.scans, f.scan, f.message, now);
    hide OneWrite;
  }

  /** The kinds of write a step can make. */
  function WritesOf(step: Step): set<Write> {
    match step
    case Enqueue(_, _, _, _, _, _, _) => {Creation}
    case ClaimRow(_, _, _, _, _) => {Creation, Claiming}
    case PublishFails(_, _, _) => {Failure}
    case PersistFailure(_, _, _) => {Failure}
    case SetVersions(_, _, _, _, _) => {Versioning}
    case Finalise(_, _, _, _, _) => {Completion}
    case _ => {}
  }

  lemma NoWrite(scans: Scans)
    ensures OneWrite(scans, scans, {})
  {
  }

  predicate WritesRows(step: Step) {
    step.Enqueue? || step.PublishFails? || step.ClaimRow? || step.SetVersions? || step.Finalise? || step.PersistFailure?
  }

  lemma OtherStepsKeepRows(s: State, step: Step)
    requires Enabled(s, step) && !WritesRows(step)
    ensures Next(s, step).db.scans == s.db.scans
  {
  }

  lemma WritesAreLegal(s: State, step: Step)
    requires Inv(s) && Enabled(s, step)
    ensures OneWrite(s.db.scans, Next(s, step).db.scans, WritesOf(step))
  {
    hide Inv, OneWrite;
    match step
    case Enqueue(q, task, name, reason, pid, sid, now) => EnqueueWrites(s, q, task, name, reason, pid, sid, now);
    case PublishFails(q, compensated, now) => PublishFailsWrites(s, q, compensated, now);
    case ClaimRow(e, pid, sid, now, raised) => ClaimWrites(s, e, pid, sid, now, raised);
    case SetVersions(e, fetched, id, previousId, raised) => SetVersionsWrites(s, e, fetched, id, previousId, raised);
    case Finalise(e, findings, ids, now, raised) => FinaliseWrites(s, e, findings, ids, now, raised);
    case PersistFailure(e, ok, now) => PersistWrites(s, e, ok, now);
    case _ => OtherStepsKeepRows(s, step); NoWrite(s.db.scans);
  }

  // ---------- status only moves forward

  predicate Terminal(status: Status) { status == Completed || status == Failed }

  predicate Forward(before: Status, after: Status) {
    || before == after
    || (before == Queued && after == Running)
    || (before == Running && Terminal(after))
  }

  lemma WriteMovesForward(scans: Scans, scans': Scans, allowed: set<Write>, sid: ScanId)
    requires OneWrite(scans, scans', allowed) && sid in scans
    ensures sid in scans' && Forward(scans[sid].status, scans'[sid].status)
    ensures scans'[sid].packageId == scans[sid].packageId && scans'[sid].createdAt == scans[sid].createdAt
    ensures Terminal(scans[sid].status) ==> scans'[sid] == scans[sid]
  {
    if scans' != scans {
      var r, write :| Written(scans, scans', r, write);
      if r != sid {
        assert scans'[sid] == scans[sid];
      }
    }
  }

  /**
   No row disappears, a status only moves queued -> running -> terminal, and terminal rows are never written again.
   */
  lemma RowsMoveForward(s: State, step: Step, sid: ScanId)
    requires Inv(s) && Enabled(s, step) && sid in s.db.scans
    ensures var scans' := Next(s, step).db.scans;
            && sid in scans' && Forward(s.db.scans[sid].status, scans'[sid].status)
            && scans'[sid].packageId == s.db.scans[sid].packageId && scans'[sid].createdAt == s.db.scans[sid].createdAt
            && (Terminal(s.db.scans[sid].status) ==> scans'[sid] == s.db.scans[sid])
  {
    WritesAreLegal(s, step);
    hide Inv, Next, Enabled, OneWrite, Forward;
    WriteMovesForward(s.db.scans, Next(s, step).db.scans, WritesOf(step), sid);
  }

  /** Over a whole run a terminal row stays as it is, finding nothing that could reopen it. */
  lemma {:induction false} TerminalForever(s: State, steps: seq<Step>, sid: ScanId)
    requires Inv(s) && ValidRun(s, steps) && sid in s.db.scans && Terminal(s.db.scans[sid].status)
    ensures sid in Run(s, steps).db.scans && Run(s, steps).db.scans[sid] == s.db.scans[sid]
    decreases |steps|
  {
    hide Inv, Next, Enabled;
    if steps != [] {
      InvNext(s, steps[0]);
      RowsMoveForward(s, steps[0], sid);
      TerminalForever(Next(s, steps[0]), steps[1..], sid);
    }
  }

  // ---------- the optional columns agree with the status

  predicate Shape(row: Scan) {
    && (row.finishedAt.Some? <==> Terminal(row.status))
    && (row.error.Some? <==> row.status == Failed)
    && (row.score.Some? <==> row.status == Completed)
    && (row.risk == Unknown <==> row.status != Completed)
    && (row.score.Some? ==> row.risk == CalculateRiskLevel(row.score.value))
  }

  ghost predicate ShapesOk(scans: Scans) {
    forall r :: r in scans ==> Shape(scans[r])
  }

  lemma WriteKeepsShapes(scans: Scans, scans': Scans, allowed: set<Write>)
    requires ShapesOk(scans) && OneWrite(scans, scans', allowed)
    ensures ShapesOk(scans')
  {
    if scans' != scans {
      var sid, write :| Written(scans, scans', sid, write);
      assert Shape(scans'[sid]) by {
        assert sid in scans ==> Shape(scans[sid]);
        match write
        case _ =>
      }
    }
  }

  lemma {:induction false} ShapesRun(s: State, steps: seq<Step>)
    requires Inv(s) && ShapesOk(s.db.scans) && ValidRun(s, steps)
    ensures ShapesOk(Run(s, steps).db.scans)
    decreases |steps|
  {
    hide Inv, Next, Enabled, ShapesOk, OneWrite;
    if steps != [] {
      InvNext(s, steps[0]);
      WritesAreLegal(s, steps[0]);
      WriteKeepsShapes(s.db.scans, Next(s, steps[0]).db.scans, WritesOf(steps[0]));
      ShapesRun(Next(s, steps[0]), steps[1..]);
    }
  }

  /** In every reachable state finished_at, error_message, score and risk_level are set exactly as the status says. */
  lemma ShapesReachable(s: State, sid: ScanId)
    requires Reachable(s) && sid in s.db.scans
    ensures Shape(s.db.scans[sid])
  {
    var steps :| ValidRun(Init, steps) && Run(Init, steps) == s;
    InvStart();
    hide Inv, Next, Enabled;
    ShapesRun(Init, steps);
  }
}
