/**
 Does the row an execution works on stay `running` until its final transaction? Not always: the compensation of
 a failed publish, and the handler of a claim that was rolled back, fail a row by id without owning it.
 This module shows that those two writes, made while somebody works on the row, are the only way it goes wrong.
 */
module Strikes {
  import opened Wrappers
  import opened Tables
  import opened Transactions
  import opened Lifecycle
  import opened Ownership

  /** Every execution that still has to write its scan row finds it running, so none of its updates is a no-op. */
  ghost predicate WorkersHoldRunningRows(s: State) {
    forall e :: e in s.execs && Working(s.execs[e].stage) ==>
      s.execs[e].stage.scan in s.db.scans && s.db.scans[s.execs[e].stage.scan].status == Running
  }

  ghost function StruckRow(s: State, step: Step): set<ScanId>
    requires Enabled(s, step)
  {
    if !Strike(s, step) then {}
    else match step
      case PublishFails(q, _, _) => {s.enqueuers[q].scan}
      case PersistFailure(e, _, _) => {s.execs[e].stage.scan}
      case _ => {}
  }

  lemma StruckNext(s: State, step: Step)
    requires Enabled(s, step)
    ensures Next(s, step).hist.struck == s.hist.struck + StruckRow(s, step)
    ensures Strike(s, step) ==> StruckRow(s, step) != {}
  {
    match step
    case _ =>
  }

  lemma NobodyWorksOnStruck(s: State)
    requires Inv(s)
    ensures WorkersHoldRunningRows(s) <==> forall r :: r in s.hist.struck ==> !WorkedOn(s, r)
  {
    forall e | e in s.execs && Working(s.execs[e].stage)
      ensures WorkedOn(s, s.execs[e].stage.scan)
    {
    }
  }

  lemma ClaimTakesUnstruckRow(s: State, e: nat, pid: PackageId, sid: ScanId, now: Time, raised: Option<string>)
    requires Inv(s) && CanClaim(s, e, pid, sid)
    ensures var x := OnClaim(s, e, pid, sid, now, raised).execs[e].stage;
            Owns(x) && x.scan !in s.hist.struck
  {
    var c := ClaimTx(s.db, s.execs[e].message.name, pid, sid, now);
    assert c.scan in s.db.scans ==> s.db.scans[c.scan].status == Queued;
  }

  /** Nobody starts working on a struck row. */
  lemma WorkBeginsOnUnstruckRows(s: State, step: Step, e: nat)
    requires Inv(s) && Enabled(s, step)
    requires var s' := Next(s, step); e in s'.execs && Working(s'.execs[e].stage)
    ensures var r := Next(s, step).execs[e].stage.scan; WorkedOn(s, r) || r !in s.hist.struck
  {
    hide Inv, CompensateTx, VersionsTx, FinalTx, MarkScanFailed, MarkJobFailed, MarkJobCompleted, StartJobTx, ClaimTx;
    if step.ClaimRow? && e == step.e {
      ClaimTakesUnstruckRow(s, e, step.pid, step.sid, step.now, step.raised);
    } else {
      hide WorkedOn;
      assert e in s.execs && Working(s.execs[e].stage) && s.execs[e].stage.scan == Next(s, step).execs[e].stage.scan
        by {
          match step
          case _ =>
        }
      WorkerIsSeen(s, e);
    }
  }

  lemma WorkerIsSeen(s: State, e: nat)
    requires e in s.execs && Working(s.execs[e].stage)
    ensures WorkedOn(s, s.execs[e].stage.scan)
  {
  }

  /** A strike hits a row whose worker carries on. */
  lemma StrikeLeavesTheWorker(s: State, step: Step)
    requires Enabled(s, step) && Strike(s, step)
    ensures exists r :: r in Next(s, step).hist.struck && WorkedOn(Next(s, step), r)
  {
    StruckNext(s, step);
    var r :| r in StruckRow(s, step);
    var e :| e in s.execs && Working(s.execs[e].stage) && s.execs[e].stage.scan == r;
    assert Next(s, step).execs[e] == s.execs[e];
    assert WorkedOn(Next(s, step), r);
  }

  /** A step takes a running row from under an execution exactly if it is a strike. */
  lemma StrikeExact(s: State, step: Step)
    requires Inv(s) && WorkersHoldRunningRows(s) && Enabled(s, step)
    ensures WorkersHoldRunningRows(Next(s, step)) <==> !Strike(s, step)
  {
    var s' := Next(s, step);
    InvNext(s, step);
    NobodyWorksOnStruck(s);
    NobodyWorksOnStruck(s');
    StruckNext(s, step);
    hide Inv, Next, Enabled, WorkersHoldRunningRows;
    if Strike(s, step) {
      StrikeLeavesTheWorker(s, step);
    } else {
      forall r | r in s'.hist.struck
        ensures !WorkedOn(s', r)
      {
        if WorkedOn(s', r) {
          var e :| e in s'.execs && Working(s'.execs[e].stage) && s'.execs[e].stage.scan == r;
          WorkBeginsOnUnstruckRows(s, step, e);
        }
      }
    }
  }

  // ---------- whole runs

  ghost predicate StrikeFree(s: State, steps: seq<Step>)
    requires ValidRun(s, steps)
    decreases |steps|
  {
    steps == [] || (!Strike(s, steps[0]) && StrikeFree(Next(s, steps[0]), steps[1..]))
  }

  ghost predicate AlwaysExclusive(s: State, steps: seq<Step>)
    requires ValidRun(s, steps)
    decreases |steps|
  {
    WorkersHoldRunningRows(s) && (steps == [] || AlwaysExclusive(Next(s, steps[0]), steps[1..]))
  }

  /** In a run, workers always hold running rows exactly if none of its steps is a strike. */
  lemma {:induction false} ExclusiveIffStrikeFree(s: State, steps: seq<Step>)
    requires Inv(s) && WorkersHoldRunningRows(s) && ValidRun(s, steps)
    ensures AlwaysExclusive(s, steps) <==> StrikeFree(s, steps)
    decreases |steps|
  {
    hide Inv, Next, Enabled, Strike, WorkersHoldRunningRows;
    if steps != [] {
      var s' := Next(s, steps[0]);
      InvNext(s, steps[0]);
      StrikeExact(s, steps[0]);
      if WorkersHoldRunningRows(s') {
        ExclusiveIffStrikeFree(s', steps[1..]);
      } else {
        assert !AlwaysExclusive(s', steps[1..]);
      }
    }
  }

  lemma ExclusiveIffStrikeFreeFromStart(steps: seq<Step>)
    requires ValidRun(Init, steps)
    ensures AlwaysExclusive(Init, steps) <==> StrikeFree(Init, steps)
  {
    InvStart();
    hide Inv, Next, Enabled, Strike;
    ExclusiveIffStrikeFree(Init, steps);
  }

  /** A run has struck no row exactly if none of its steps was a strike. */
  lemma {:induction false} StruckIffStrike(s: State, steps: seq<Step>)
    requires ValidRun(s, steps)
    ensures s.hist.struck <= Run(s, steps).hist.struck
    ensures StrikeFree(s, steps) ==> Run(s, steps).hist.struck == s.hist.struck
    ensures !StrikeFree(s, steps) ==> Run(s, steps).hist.struck != {}
    decreases |steps|
  {
    hide Next, Enabled, Strike;
    if steps != [] {
      StruckNext(s, steps[0]);
      StruckIffStrike(Next(s, steps[0]), steps[1..]);
    }
  }
}
