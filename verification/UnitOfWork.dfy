/**
 The commit/rollback boundary of app/infrastructure/db/unit_of_work.py. The database carries, beside its tables, the
 state of Lifecycle they are part of: whoever commits a block makes a step of that machine, so a valid database is
 always in a state the machine can reach.
 */
module UnitOfWork {
  import opened Wrappers
  import opened Tables
  import opened Transactions
  import opened Lifecycle
  import opened Repository

  /** What everybody else does meanwhile, whatever state they find. */
  type Others = State -> seq<Step>

  /** The step comes after the first `from` ones. */
  ghost predicate Made(trace: seq<Step>, from: nat, step: Step) {
    exists i :: from <= i < |trace| && trace[i] == step
  }

  lemma MadeStays(trace: seq<Step>, longer: seq<Step>, from: nat, later: nat, step: Step)
    requires Made(trace, later, step) && trace <= longer && from <= later
    ensures Made(longer, from, step)
  {
    var i :| later <= i < |trace| && trace[i] == step;
    assert longer[i] == step;
  }

  class Database {
    var tables: Db
    var state: State
    ghost var trace: seq<Step>

    /** The tables are those of the machine after the steps so far. */
    ghost predicate Valid()
      reads this
    {
      ValidRun(Init, trace) && Run(Init, trace) == state && state.db == tables
    }

    constructor ()
      ensures Valid() && state == Init
    {
      tables, state, trace := EmptyDb, Init, [];
    }

    /** One step of the machine whose effect on the tables is known. */
    method Advance(step: Step, after: Db)
      requires Valid() && Enabled(state, step) && Next(state, step).db == after
      modifies this
      ensures Valid() && state == Next(old(state), step) && tables == after
      ensures trace == old(trace) + [step]
    {
      ghost var before := state;
      Appended(trace, [step], before);
      state := Next(state, step);
      tables := after;
      trace := trace + [step];
      assert ValidRun(before, [step]) && Run(before, [step]) == state by {
        assert [step][1..] == [];
      }
    }

    /** Others run between two blocks. */
    method Pause(others: Others)
      requires Valid() && ValidRun(state, others(state))
      modifies this
      ensures Valid() && state == Run(old(state), others(old(state)))
      ensures trace == old(trace) + others(old(state))
    {
      Appended(trace, others(state), state);
      trace := trace + others(state);
      state := Run(state, others(state));
      tables := state.db;
    }
  }

  lemma Appended(trace: seq<Step>, steps: seq<Step>, s: State)
    requires ValidRun(Init, trace) && Run(Init, trace) == s
    ensures ValidRun(Init, trace + steps) <==> ValidRun(s, steps)
    ensures ValidRun(s, steps) ==> Run(Init, trace + steps) == Run(s, steps)
  {
    RunAppend(Init, trace, steps);
  }

  /** A valid database is in a reachable state: all that is proved about those holds of its tables. */
  lemma ValidIsReachable(database: Database)
    requires database.Valid()
    ensures Reachable(database.state) && database.tables == database.state.db
  {
  }

  class SqlAlchemyRepositoryUnitOfWork {
    const database: Database
    var session: Session?

    constructor (database: Database)
      ensures this.database == database && session == null
    {
      this.database := database;
      session := null;
    }

    method Enter() returns (repository: SqlAlchemyPackageRepository)
      modifies this
      ensures session != null && fresh(session) && session.Contents() == database.tables
      ensures fresh(repository) && repository.session == session
    {
      session := new Session(database.tables);
      repository := new SqlAlchemyPackageRepository(session);
    }

    /**
     Commit, or roll back if the block or its commit failed. `step` says what that is in terms of the machine: at
     least a commit is one of its steps.
     */
    method Exit(failed: bool, step: Option<Step>)
      requires session != null && database.Valid() && (step.None? ==> failed)
      requires step.Some? ==>
                 && Enabled(database.state, step.value)
                 && Next(database.state, step.value).db == if failed then database.tables else session.Contents()
      modifies this, database
      ensures session == null && database.Valid()
      ensures database.state == if step.Some? then Next(old(database.state), step.value) else old(database.state)
      ensures database.tables == if failed then old(database.tables) else old(session.Contents())
      ensures database.trace == old(database.trace) + if step.Some? then [step.value] else []
    {
      if step.Some? {
        database.Advance(step.value, if failed then database.tables else session.Contents());
      }
      session := null;
    }
  }

  // ---------- staying out of an execution's way

  /** The steps an execution takes itself, or that end it. */
  predicate ActsFor(step: Step, e: nat) {
    match step
    case LoseWorker(f, _) => f == e
    case StartJob(f, _) => f == e
    case StartJobFails(f) => f == e
    case ClaimRow(f, _, _, _, _) => f == e
    case ClaimFails(f) => f == e
    case ClaimCommitFails(f, _) => f == e
    case SetVersions(f, _, _, _, _) => f == e
    case WorkFails(f, _, _) => f == e
    case Finalise(f, _, _, _, _) => f == e
    case PersistFailure(f, _, _) => f == e
    case FailJob(f, _, _, _) => f == e
    case CompleteJob(f, _, _) => f == e
    case Finish(f, _, _) => f == e
    case _ => false
  }

  predicate SendsFor(step: Step, q: nat) {
    match step
    case Publish(r, _) => r == q
    case PublishFails(r, _, _) => r == q
    case _ => false
  }

  /** From any state, others make a run that takes no step of the execution for it. */
  ghost predicate LeaveExecAlone(others: Others, e: nat) {
    forall s: State :: e in s.execs ==> ValidRun(s, others(s)) && forall step :: step in others(s) ==> !ActsFor(step, e)
  }

  ghost predicate LeaveEnqueuerAlone(others: Others, q: nat) {
    forall s: State :: q in s.enqueuers ==>
      ValidRun(s, others(s)) && forall step :: step in others(s) ==> !SendsFor(step, q)
  }

  lemma OtherStepKeepsExec(s: State, step: Step, e: nat)
    requires Enabled(s, step) && e in s.execs && !ActsFor(step, e)
    ensures e in Next(s, step).execs && Next(s, step).execs[e] == s.execs[e]
    ensures s.hist.finals <= Next(s, step).hist.finals
  {
    hide WorkedOn, NextQueued, ClaimTx, EnqueueTx, FinalTx, CompensateTx, StartJobTx, VersionsTx, MarkScanFailed,
      MarkJobFailed, MarkJobCompleted, FreshIds;
  }

  lemma {:induction false} OthersKeepExec(s: State, steps: seq<Step>, e: nat)
    requires ValidRun(s, steps) && e in s.execs && forall step :: step in steps ==> !ActsFor(step, e)
    ensures e in Run(s, steps).execs && Run(s, steps).execs[e] == s.execs[e]
    ensures s.hist.finals <= Run(s, steps).hist.finals
    decreases |steps|
  {
    hide Next, Enabled, ActsFor;
    if steps != [] {
      OtherStepKeepsExec(s, steps[0], e);
      OthersKeepExec(Next(s, steps[0]), steps[1..], e);
    }
  }

  lemma OtherStepKeepsEnqueuer(s: State, step: Step, q: nat)
    requires Enabled(s, step) && q in s.enqueuers && !SendsFor(step, q)
    ensures q in Next(s, step).enqueuers && Next(s, step).enqueuers[q] == s.enqueuers[q]
  {
    hide WorkedOn, NextQueued, ClaimTx, EnqueueTx, FinalTx, CompensateTx, StartJobTx, VersionsTx, MarkScanFailed,
      MarkJobFailed, MarkJobCompleted, FreshIds;
  }

  lemma {:induction false} OthersKeepEnqueuer(s: State, steps: seq<Step>, q: nat)
    requires ValidRun(s, steps) && q in s.enqueuers && forall step :: step in steps ==> !SendsFor(step, q)
    ensures q in Run(s, steps).enqueuers && Run(s, steps).enqueuers[q] == s.enqueuers[q]
    decreases |steps|
  {
    hide Next, Enabled, SendsFor;
    if steps != [] {
      OtherStepKeepsEnqueuer(s, steps[0], q);
      OthersKeepEnqueuer(Next(s, steps[0]), steps[1..], q);
    }
  }

  /** Others run while execution e is between two of its blocks. */
  method PauseExec(database: Database, others: Others, e: nat)
    requires database.Valid() && e in database.state.execs && LeaveExecAlone(others, e)
    modifies database
    ensures database.Valid() && e in database.state.execs && database.state.execs[e] == old(database.state.execs[e])
    ensures old(database.state.hist.finals) <= database.state.hist.finals && old(database.trace) <= database.trace
  {
    OthersKeepExec(database.state, others(database.state), e);
    database.Pause(others);
  }

  // ---------- sequences of the database

  /** An id no row has. */
  method NextId(ids: set<nat>) returns (id: nat)
    ensures id !in ids
  {
    id := 0;
    var rest := ids;
    while rest != {}
      invariant rest <= ids && forall x :: x in ids && x !in rest ==> x < id
      decreases |rest|
    {
      var x :| x in rest;
      rest := rest - {x};
      id := if x >= id then x + 1 else id;
    }
  }

  method NextVersionIds(versions: map<VersionKey, Version>) returns (id: nat, another: nat)
    ensures UnusedIds(versions, id, another)
  {
    var ids := set key | key in versions :: versions[key].id;
    id := NextId(ids);
    another := NextId(ids + {id});
    assert forall key :: key in versions ==> versions[key].id in ids;
  }

  method NextFindingIds(rows: seq<FindingRow>, n: nat) returns (ids: seq<FindingId>)
    ensures |ids| == n && FreshIds(rows, ids)
  {
    var first := NextIdAfter(rows);
    ids := seq(n, i => first + i);
  }

  method NextIdAfter(rows: seq<FindingRow>) returns (id: nat)
    ensures forall i :: 0 <= i < |rows| ==> rows[i].id < id
  {
    id := 0;
    for i := 0 to |rows|
      invariant forall j :: 0 <= j < i ==> rows[j].id < id
    {
      id := if rows[i].id >= id then rows[i].id + 1 else id;
    }
  }
}
