/**
 Over a whole run, whatever is redelivered or retried, a scan row is claimed once at most and finished once at most.
 */
module OnceOnly {
  import opened Wrappers
  import opened Tables
  import opened Transactions
  import opened Lifecycle
  import opened Ownership
  import opened ScanRows
  import opened Strikes

  /** The row a claim takes or creates. */
  function TakenBy(s: State, step: Step): Option<ScanId> {
    if step.ClaimRow? && step.e in s.execs
    then Some(ClaimTx(s.db, s.execs[step.e].message.name, step.pid, step.sid, step.now).scan) else None
  }

  /** The row a final transaction is for. */
  function FinishedBy(s: State, step: Step): Option<ScanId> {
    if step.Finalise? && step.e in s.execs && s.execs[step.e].stage.Versioned?
    then Some(s.execs[step.e].stage.scan) else None
  }

  predicate Begun(s: State, sid: ScanId) { sid in s.db.scans && s.db.scans[sid].status != Queued }

  // ---------- claims

  lemma ClaimBegins(s: State, e: nat, pid: PackageId, sid: ScanId, now: Time, raised: Option<string>)
    requires CanClaim(s, e, pid, sid)
    ensures var taken := TakenBy(s, ClaimRow(e, pid, sid, now, raised)).value;
            !Begun(s, taken) && Begun(OnClaim(s, e, pid, sid, now, raised), taken)
  {
  }

  lemma TakenRowsBegin(s: State, step: Step)
    requires Enabled(s, step) && TakenBy(s, step).Some?
    ensures var taken := TakenBy(s, step).value; !Begun(s, taken) && Begun(Next(s, step), taken)
  {
    ClaimBegins(s, step.e, step.pid, step.sid, step.now, step.raised);
    hide OnClaim, ClaimTx, Begun;
  }

  lemma BegunStays(s: State, step: Step, sid: ScanId)
    requires Inv(s) && Enabled(s, step) && Begun(s, sid)
    ensures Begun(Next(s, step), sid)
  {
    RowsMoveForward(s, step, sid);
    hide Inv, Next, Enabled;
  }

  ghost function Takings(s: State, steps: seq<Step>, sid: ScanId): nat
    requires ValidRun(s, steps)
    decreases |steps|
  {
    if steps == [] then 0
    else (if TakenBy(s, steps[0]) == Some(sid) then 1 else 0) + Takings(Next(s, steps[0]), steps[1..], sid)
  }

  /** Over any run a scan row is claimed at most once, and never once it has begun. */
  lemma {:induction false} ClaimedAtMostOnce(s: State, steps: seq<Step>, sid: ScanId)
    requires Inv(s) && ValidRun(s, steps)
    ensures Takings(s, steps, sid) <= if Begun(s, sid) then 0 else 1
    decreases |steps|
  {
    hide Inv, Next, Enabled, Begun, TakenBy;
    if steps != [] {
      InvNext(s, steps[0]);
      if TakenBy(s, steps[0]) == Some(sid) {
        TakenRowsBegin(s, steps[0]);
      }
      if Begun(s, sid) {
        BegunStays(s, steps[0], sid);
      }
      ClaimedAtMostOnce(Next(s, steps[0]), steps[1..], sid);
    }
  }

  // ---------- final transactions

  /** Begun, and nobody works on it. */
  ghost predicate LetGo(s: State, sid: ScanId) { Begun(s, sid) && !WorkedOn(s, sid) }

  lemma ClaimGivesWork(s: State, step: Step)
    requires Enabled(s, step) && step.ClaimRow? && Working(Next(s, step).execs[step.e].stage)
    ensures TakenBy(s, step) == Some(Next(s, step).execs[step.e].stage.scan)
  {
    hide ClaimTx;
  }

  /** Only a claim gives anybody a row to work on. */
  lemma WorkBeginsWithClaims(s: State, step: Step, sid: ScanId)
    requires Enabled(s, step) && WorkedOn(Next(s, step), sid)
    ensures WorkedOn(s, sid) || TakenBy(s, step) == Some(sid)
  {
    var s' := Next(s, step);
    var e :| e in s'.execs && Working(s'.execs[e].stage) && s'.execs[e].stage.scan == sid;
    hide CompensateTx, VersionsTx, FinalTx, MarkScanFailed, MarkJobFailed, MarkJobCompleted, StartJobTx, ClaimTx,
      FreshIds;
    if step.ClaimRow? && e == step.e {
      ClaimGivesWork(s, step);
    } else {
      hide WorkedOn, TakenBy;
      assert e in s.execs && Working(s.execs[e].stage) && s.execs[e].stage.scan == sid by {
        match step
        case _ =>
      }
      WorkerIsSeen(s, e);
    }
  }

  lemma LetGoStays(s: State, step: Step, sid: ScanId)
    requires Inv(s) && Enabled(s, step) && LetGo(s, sid)
    ensures LetGo(Next(s, step), sid) && FinishedBy(s, step) != Some(sid)
  {
    BegunStays(s, step, sid);
    if FinishedBy(s, step) == Some(sid) {
      WorkerIsSeen(s, step.e);
    }
    hide Inv, Next, Enabled, WorkedOn;
    if WorkedOn(Next(s, step), sid) {
      WorkBeginsWithClaims(s, step, sid);
      TakenRowsBegin(s, step);
    }
  }

  lemma FinishLetsGo(s: State, step: Step, sid: ScanId)
    requires Inv(s) && Enabled(s, step) && FinishedBy(s, step) == Some(sid)
    ensures LetGo(Next(s, step), sid)
  {
    var s' := Next(s, step);
    assert ExclusiveOwners(s.execs);
    Facts(s, step.e);
    assert Begun(s, sid);
    BegunStays(s, step, sid);
    hide Inv, Enabled, FinalTx, Begun;
    assert !Working(s'.execs[step.e].stage) && s'.execs == s.execs[step.e := s'.execs[step.e]];
  }

  ghost function Finishes(s: State, steps: seq<Step>, sid: ScanId): nat
    requires ValidRun(s, steps)
    decreases |steps|
  {
    if steps == [] then 0
    else (if FinishedBy(s, steps[0]) == Some(sid) then 1 else 0) + Finishes(Next(s, steps[0]), steps[1..], sid)
  }

  /** Over any run a scan has at most one final transaction, and none once it has been let go. */
  lemma {:induction false} FinishedAtMostOnce(s: State, steps: seq<Step>, sid: ScanId)
    requires Inv(s) && ValidRun(s, steps)
    ensures Finishes(s, steps, sid) <= if LetGo(s, sid) then 0 else 1
    decreases |steps|
  {
    hide Inv, Next, Enabled, LetGo, FinishedBy;
    if steps != [] {
      InvNext(s, steps[0]);
      if FinishedBy(s, steps[0]) == Some(sid) {
        FinishLetsGo(s, steps[0], sid);
      }
      if LetGo(s, sid) {
        LetGoStays(s, steps[0], sid);
      }
      FinishedAtMostOnce(Next(s, steps[0]), steps[1..], sid);
    }
  }
}
