/** Runs end: a weight every step but an enqueue or a fault lowers, and what is left when nothing can step. */
module Termination {
  import opened Wrappers
  import opened Tables
  import opened Transactions
  import opened Lifecycle
  import opened Ownership

  // ---------- sums over finite maps

  ghost function Sum<V>(m: map<nat, V>, w: V -> nat): nat
    decreases |m|
  {
    if m == map[] then 0
    else
      var k :| k in m;
      w(m[k]) + Sum(m - {k}, w)
  }

  lemma {:induction false} SumRemove<V>(m: map<nat, V>, w: V -> nat, k: nat)
    requires k in m
    ensures Sum(m, w) == w(m[k]) + Sum(m - {k}, w)
    decreases |m|
  {
    var j :| j in m && Sum(m, w) == w(m[j]) + Sum(m - {j}, w);
    if j != k {
      SumRemove(m - {j}, w, k);
      SumRemove(m - {k}, w, j);
      assert m - {j} - {k} == m - {k} - {j};
    }
  }

  lemma SumEmpty<V>(m: map<nat, V>, w: V -> nat)
    requires |m| == 0
    ensures Sum(m, w) == 0
  {
    assert m == map[];
  }

  lemma SumPut<V>(m: map<nat, V>, w: V -> nat, k: nat, v: V)
    ensures Sum(m[k := v], w) + (if k in m then w(m[k]) else 0) == Sum(m, w) + w(v)
  {
    SumRemove(m[k := v], w, k);
    if k in m {
      SumRemove(m, w, k);
      assert m[k := v] - {k} == m - {k};
    } else {
      assert m[k := v] - {k} == m;
    }
  }

  // ---------- the weight

  function Rank(stage: Stage): nat {
    match stage
    case Delivered => 0
    case Started => 1
    case Claimed(_, _) => 2
    case Versioned(_, _, _) => 3
    case Committed(_, _) => 4
    case Failing(_, _, _) => 4
    case Stale(_, _) => 4
    case Raised(_) => 5
    case Reraised(_) => 6
  }

  /** Every retry still to come is worth a whole execution. */
  function MessageWeight(m: Message): nat { 8 * (4 - m.retries) }

  function ExecWeight(x: Exec): nat { 8 * (4 - x.message.retries) - 1 - Rank(x.stage) }

  const ENQUEUER_WEIGHT := 33

  function EnqueuerWeight(q: Enqueuer): nat { ENQUEUER_WEIGHT }

  ghost function Weight(s: State): nat {
    Sum(s.enqueuers, EnqueuerWeight) + Sum(s.queue, MessageWeight) + Sum(s.execs, ExecWeight)
  }

  predicate Fault(step: Step) { step.LoseWorker? || step.DeliverAgain? }

  lemma StageRises(s: State, s': State, e: nat)
    requires e in s.execs && e in s'.execs && s'.execs == s.execs[e := s'.execs[e]]
    requires s'.execs[e].message == s.execs[e].message && Rank(s'.execs[e].stage) > Rank(s.execs[e].stage)
    requires s'.enqueuers == s.enqueuers && s'.queue == s.queue
    ensures Weight(s') < Weight(s)
  {
    SumPut(s.execs, ExecWeight, e, s'.execs[e]);
  }

  predicate MovesStage(step: Step) {
    || step.StartJob? || step.ClaimRow? || step.ClaimFails? || step.ClaimCommitFails? || step.SetVersions?
    || step.WorkFails? || step.Finalise? || step.PersistFailure? || step.FailJob?
  }

  lemma StageMoved(s: State, step: Step)
    requires Enabled(s, step) && MovesStage(step)
    ensures var s' := Next(s, step);
            && step.e in s.execs && step.e in s'.execs && s'.execs == s.execs[step.e := s'.execs[step.e]]
            && s'.execs[step.e].message == s.execs[step.e].message
            && Rank(s'.execs[step.e].stage) > Rank(s.execs[step.e].stage)
            && s'.enqueuers == s.enqueuers && s'.queue == s.queue
  {
    hide WorkedOn, StartJobTx, CompensateTx, ClaimTx, VersionsTx, FinalTx, EnqueueTx;
  }

  /** Every step but an enqueue or a fault makes the weight smaller, and those two raise it by a constant at most. */
  lemma WeightNext(s: State, step: Step)
    requires Enabled(s, step)
    ensures !step.Enqueue? && !Fault(step) ==> Weight(Next(s, step)) < Weight(s)
    ensures Weight(Next(s, step)) <= Weight(s) + 33
  {
    if MovesStage(step) {
      StageMoved(s, step);
      hide Next, Enabled, Weight;
      StageRises(s, Next(s, step), step.e);
    } else {
      hide WorkedOn, CompensateTx, EnqueueTx, Sum;
      match step
      case Enqueue(q, task, name, reason, pid, sid, now) =>
        SumPut(s.enqueuers, EnqueuerWeight, q, Enqueuer(task, name, reason, sid));
      case Publish(q, m) =>
        SumRemove(s.enqueuers, EnqueuerWeight, q);
        SumPut(s.queue, MessageWeight, m, Message(s.enqueuers[q].task, s.enqueuers[q].name, s.enqueuers[q].reason, 0));
      case PublishFails(q, compensated, now) => SumRemove(s.enqueuers, EnqueuerWeight, q);
      case Deliver(m, e) =>
        SumRemove(s.queue, MessageWeight, m);
        SumPut(s.execs, ExecWeight, e, Exec(s.queue[m], Delivered));
      case DeliverAgain(e, m) => SumPut(s.queue, MessageWeight, m, s.execs[e].message);
      case LoseWorker(e, m) =>
        SumPut(s.queue, MessageWeight, m, s.execs[e].message);
        SumRemove(s.execs, ExecWeight, e);
      case StartJobFails(e) => SumRemove(s.execs, ExecWeight, e);
      case CompleteJob(e, ok, now) => SumRemove(s.execs, ExecWeight, e);
      case Finish(e, m, republished) =>
        SumRemove(s.execs, ExecWeight, e);
        if s.execs[e].stage.retryable && s.execs[e].message.retries < 3 && republished {
          var msg := s.execs[e].message;
          SumPut(s.queue, MessageWeight, m, msg.(retries := msg.retries + 1));
        }
    }
  }

  ghost function Enqueues(steps: seq<Step>): nat {
    if steps == [] then 0 else (if steps[0].Enqueue? then 1 else 0) + Enqueues(steps[1..])
  }

  ghost function Faults(steps: seq<Step>): nat {
    if steps == [] then 0 else (if Fault(steps[0]) then 1 else 0) + Faults(steps[1..])
  }

  /** The length of a run is bounded by its starting weight, its enqueues, and its faults. */
  lemma {:induction false} RunsAreBounded(s: State, steps: seq<Step>)
    requires ValidRun(s, steps)
    ensures |steps| + Weight(Run(s, steps)) <= Weight(s) + 34 * (Enqueues(steps) + Faults(steps))
    decreases |steps|
  {
    if steps != [] {
      hide Next, Enabled, Weight;
      WeightNext(s, steps[0]);
      RunsAreBounded(Next(s, steps[0]), steps[1..]);
    }
  }

  /** From the empty system: at most 34 steps for every enqueue and every fault. */
  lemma EveryRunEnds(steps: seq<Step>)
    requires ValidRun(Init, steps)
    ensures |steps| <= 34 * (Enqueues(steps) + Faults(steps))
  {
    hide Next, Enabled;
    SumEmpty(Init.enqueuers, EnqueuerWeight);
    SumEmpty(Init.queue, MessageWeight);
    SumEmpty(Init.execs, ExecWeight);
    RunsAreBounded(Init, steps);
  }

  // ---------- what a run ends in

  ghost predicate Quiet(s: State) {
    s.enqueuers == map[] && s.queue == map[] && s.execs == map[]
  }

  lemma UnusedKey(keys: set<nat>) returns (k: nat)
    ensures forall x :: x in keys ==> x < k
  {
    if keys == {} {
      k := 0;
    } else {
      var x :| x in keys;
      var j := UnusedKey(keys - {x});
      k := if x < j then j else x + 1;
      assert forall y :: y in keys ==> y == x || y in keys - {x};
    }
  }

  function NextStep(s: State, e: nat, m: nat, pid: PackageId, sid: ScanId): Step
    requires e in s.execs
  {
    match s.execs[e].stage
    case Delivered => StartJob(e, 0)
    case Started => ClaimRow(e, pid, sid, 0, None)
    case Claimed(_, _) => WorkFails(e, false, "")
    case Versioned(_, _, _) => WorkFails(e, false, "")
    case Committed(_, _) => CompleteJob(e, true, 0)
    case Failing(_, _, _) => PersistFailure(e, true, 0)
    case Stale(_, _) => PersistFailure(e, true, 0)
    case Raised(_) => FailJob(e, true, "", 0)
    case Reraised(_) => Finish(e, m, false)
  }

  /** Nothing deadlocks: unless everything is quiet, some step other than an enqueue or a fault is enabled. */
  lemma Progress(s: State)
    requires !Quiet(s)
    ensures exists step :: Enabled(s, step) && !step.Enqueue? && !Fault(step)
  {
    var m := UnusedKey(s.queue.Keys);
    if s.enqueuers != map[] {
      var q :| q in s.enqueuers;
      assert Enabled(s, Publish(q, m));
    } else if s.execs != map[] {
      var e :| e in s.execs;
      var pid := UnusedKey(s.db.packages.Keys);
      var sid := UnusedKey(s.db.scans.Keys);
      var step := NextStep(s, e, m, pid, sid);
      assert Enabled(s, step) && !step.Enqueue? && !Fault(step);
    } else {
      var n :| n in s.queue;
      var e := UnusedKey(s.execs.Keys);
      assert Enabled(s, Deliver(n, e));
    }
  }

  /** When everything is quiet, a row still running was abandoned: its owner was lost or could not fail it. */
  lemma QuietLeavesOnlyAbandoned(s: State, sid: ScanId)
    requires Reachable(s) && Quiet(s) && sid in s.db.scans && s.db.scans[sid].status == Running
    ensures sid in s.hist.abandoned
  {
    InvReachable(s);
    hide RefsOk, TasksOk;
  }

  /** No execution lets go of a row without ending it. */
  predicate LetsGo(step: Step) { step.LoseWorker? || (step.PersistFailure? && !step.ok) }

  lemma AbandonedNext(s: State, step: Step)
    requires Enabled(s, step) && !LetsGo(step)
    ensures Next(s, step).hist.abandoned == s.hist.abandoned
  {
    hide WorkedOn, StartJobTx, CompensateTx, ClaimTx, VersionsTx, FinalTx, EnqueueTx;
  }

  lemma {:induction false} AbandonedRun(s: State, steps: seq<Step>)
    requires ValidRun(s, steps) && forall step :: step in steps ==> !LetsGo(step)
    ensures Run(s, steps).hist.abandoned == s.hist.abandoned
    decreases |steps|
  {
    hide Next, Enabled;
    if steps != [] {
      AbandonedNext(s, steps[0]);
      AbandonedRun(Next(s, steps[0]), steps[1..]);
    }
  }

  /** A run that loses no worker and persists every failure leaves no scan running once it is over. */
  lemma NothingLeftRunning(steps: seq<Step>, sid: ScanId)
    requires ValidRun(Init, steps) && Quiet(Run(Init, steps))
    requires forall step :: step in steps ==> !LetsGo(step)
    requires sid in Run(Init, steps).db.scans
    ensures Run(Init, steps).db.scans[sid].status != Running
  {
    hide Next, Enabled;
    AbandonedRun(Init, steps);
    if Run(Init, steps).db.scans[sid].status == Running {
      QuietLeavesOnlyAbandoned(Run(Init, steps), sid);
    }
  }
}
