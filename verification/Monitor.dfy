/**
 One tick of the monitor (app/application/use_cases/monitor_updates.py): a task for every package name, all sharing
 one result and one semaphore, scheduled in any order between their awaits.
 */
module Monitor {
  import opened Wrappers

  // ---------- what a task sees

  datatype UpdateType = NewPackage | UpdatedPackage | Unchanged

  function ClassifyUpdate(latestScanned: Option<string>, registryLatest: string): UpdateType {
    match latestScanned
    case None => NewPackage
    case Some(v) => if v != registryLatest then UpdatedPackage else Unchanged
  }

  /** str(exc) and the name of its class */
  datatype Exception = Exception(text: string, className: string)

  datatype Metadata = Metadata(packageName: string, latest: string)
  datatype PackageScanState = PackageScanState(packageId: Option<nat>, latestScanned: Option<string>)
  datatype PackageMonitorError = PackageMonitorError(packageName: string, error: string)

  /** The answers of everything a task awaits, and the settings of the tick. */
  datatype Setup = Setup(
    names: seq<string>, concurrency: nat, skipRunning: bool,
    fetch: string -> Result<Metadata, Exception>,
    load: string -> Result<PackageScanState, Exception>,
    hasRunning: nat -> Result<bool, Exception>,
    enqueue: string -> Result<(), Exception>)

  // ---------- the shared result

  datatype Tally = Tally(
    checkedCount: nat, newCount: nat, updatedCount: nat, unchangedCount: nat, skippedCount: nat, failedCount: nat,
    errors: seq<PackageMonitorError>)

  const NoTally := Tally(0, 0, 0, 0, 0, 0, [])

  function ErrorOf(name: string, exc: Exception): PackageMonitorError {
    PackageMonitorError(name, if exc.text != "" then exc.text else exc.className)
  }

  function RecordedFailure(t: Tally, name: string, exc: Exception): Tally {
    t.(failedCount := t.failedCount + 1, errors := t.errors + [ErrorOf(name, exc)])
  }

  function CountedChecked(t: Tally): Tally { t.(checkedCount := t.checkedCount + 1) }

  function CountedSkipped(t: Tally): Tally { t.(skippedCount := t.skippedCount + 1) }

  function CountedUnchanged(t: Tally): Tally { t.(unchangedCount := t.unchangedCount + 1) }

  function CountedEnqueued(t: Tally, update: UpdateType): Tally {
    if update == NewPackage then t.(newCount := t.newCount + 1) else t.(updatedCount := t.updatedCount + 1)
  }

  // ---------- the reference: one name after the other, nothing concurrent

  /** `_process_package` from beginning to end. */
  function ProcessPackage(setup: Setup, name: string, t: Tally): Tally {
    match setup.fetch(name)
    case Err(exc) => RecordedFailure(t, name, exc)
    case Ok(metadata) =>
      var t := CountedChecked(t);
      match setup.load(metadata.packageName)
      case Err(exc) => RecordedFailure(t, name, exc)
      case Ok(state) =>
        var update := ClassifyUpdate(state.latestScanned, metadata.latest);
        if update == Unchanged then CountedUnchanged(t)
        else
          var running :=
            if setup.skipRunning && state.packageId.Some? then setup.hasRunning(state.packageId.value) else Ok(false);
          match running
          case Err(exc) => RecordedFailure(t, name, exc)
          case Ok(true) => CountedSkipped(t)
          case Ok(false) =>
            match setup.enqueue(metadata.packageName)
            case Err(exc) => RecordedFailure(t, name, exc)
            case Ok(_) => CountedEnqueued(t, update)
  }

  function Sequential(setup: Setup, names: seq<string>): Tally {
    if names == [] then NoTally
    else ProcessPackage(setup, names[|names| - 1], Sequential(setup, names[..|names| - 1]))
  }

  // ---------- concurrent tasks

  /** What a task is awaiting. */
  datatype Task =
    | Waiting                                                        // for the semaphore
    | Fetching
    | Loading(metadata: Metadata)
    | CheckingRunning(metadata: Metadata, update: UpdateType, packageId: nat)
    | Enqueuing(metadata: Metadata, update: UpdateType)
    | Done

  datatype Tick = Tick(tasks: seq<Task>, tally: Tally)

  function Start(setup: Setup): Tick {
    Tick(seq(|setup.names|, i => Waiting), NoTally)
  }

  /** Permits of the semaphore that are taken. */
  function InFlight(tasks: seq<Task>): nat {
    if tasks == [] then 0 else (if tasks[0].Fetching? then 1 else 0) + InFlight(tasks[1..])
  }

  predicate Ready(setup: Setup, tick: Tick, i: nat) {
    i < |tick.tasks| && !tick.tasks[i].Done? && (tick.tasks[i].Waiting? ==> InFlight(tick.tasks) < setup.concurrency)
  }

  /** The code from one await of a task to its next. */
  function Advance(setup: Setup, name: string, task: Task, t: Tally): (Task, Tally)
    requires !task.Done?
  {
    match task
    case Waiting => (Fetching, t)
    case Fetching =>
      (match setup.fetch(name)
       case Err(exc) => (Done, RecordedFailure(t, name, exc))
       case Ok(metadata) => (Loading(metadata), CountedChecked(t)))
    case Loading(metadata) =>
      (match setup.load(metadata.packageName)
       case Err(exc) => (Done, RecordedFailure(t, name, exc))
       case Ok(state) =>
         var update := ClassifyUpdate(state.latestScanned, metadata.latest);
         if update == Unchanged then (Done, CountedUnchanged(t))
         else if setup.skipRunning && state.packageId.Some? then
           (CheckingRunning(metadata, update, state.packageId.value), t)
         else (Enqueuing(metadata, update), t))
    case CheckingRunning(metadata, update, packageId) =>
      (match setup.hasRunning(packageId)
       case Err(exc) => (Done, RecordedFailure(t, name, exc))
       case Ok(running) =>
         if running then (Done, CountedSkipped(t)) else (Enqueuing(metadata, update), t))
    case Enqueuing(metadata, update) =>
      (match setup.enqueue(metadata.packageName)
       case Err(exc) => (Done, RecordedFailure(t, name, exc))
       case Ok(_) => (Done, CountedEnqueued(t, update)))
  }

  function Resumed(setup: Setup, tick: Tick, i: nat): Tick
    requires |tick.tasks| == |setup.names| && Ready(setup, tick, i)
  {
    var (task, tally) := Advance(setup, setup.names[i], tick.tasks[i], tick.tally);
    Tick(tick.tasks[i := task], tally)
  }

  /** A schedule names, resumption by resumption, which of them runs next. */
  predicate Schedule(setup: Setup, tick: Tick, schedule: seq<nat>)
    requires |tick.tasks| == |setup.names|
    decreases |schedule|
  {
    schedule == []
    || (Ready(setup, tick, schedule[0]) && Schedule(setup, Resumed(setup, tick, schedule[0]), schedule[1..]))
  }

  function After(setup: Setup, tick: Tick, schedule: seq<nat>): (r: Tick)
    requires |tick.tasks| == |setup.names| && Schedule(setup, tick, schedule)
    ensures |r.tasks| == |setup.names|
    decreases |schedule|
  {
    if schedule == [] then tick else After(setup, Resumed(setup, tick, schedule[0]), schedule[1..])
  }

  predicate AllDone(tick: Tick) {
    forall i :: 0 <= i < |tick.tasks| ==> tick.tasks[i].Done?
  }

  // ---------- the tally is the sum of what its tasks have contributed

  /** A number to read off a tally; of the errors, how many there are and how often a given one occurs. */
  datatype Counter = Checked | NewOnes | UpdatedOnes
    | UnchangedOnes | Skipped | Failures | ErrorCount | Occurrences(x: PackageMonitorError)

  function Count(t: Tally, c: Counter): nat {
    match c
    case Checked => t.checkedCount
    case NewOnes => t.newCount
    case UpdatedOnes => t.updatedCount
    case UnchangedOnes => t.unchangedCount
    case Skipped => t.skippedCount
    case Failures => t.failedCount
    case ErrorCount => |t.errors|
    case Occurrences(x) => multiset(t.errors)[x]
  }

  function Sum(ns: seq<nat>): nat {
    if ns == [] then 0 else Sum(ns[..|ns| - 1]) + ns[|ns| - 1]
  }

  lemma {:induction false} SumUpdate(ns: seq<nat>, i: nat, n: nat)
    requires i < |ns|
    ensures Sum(ns[i := n]) + ns[i] == Sum(ns) + n
  {
    var last := |ns| - 1;
    if i < last {
      SumUpdate(ns[..last], i, n);
      assert ns[i := n][..last] == ns[..last][i := n];
    } else {
      assert ns[i := n][..last] == ns[..last];
    }
  }

  /** What a finished task has contributed. */
  function Full(setup: Setup, name: string, c: Counter): nat {
    Count(ProcessPackage(setup, name, NoTally), c)
  }

  /** What a task awaiting this has contributed so far. */
  function SoFar(setup: Setup, name: string, task: Task, c: Counter): nat {
    if task.Done? then Full(setup, name, c)
    else if c == Checked && !task.Waiting? && !task.Fetching? then 1 else 0
  }

  /** A task only awaits what the answers so far led it to. */
  predicate OnCourse(setup: Setup, name: string, task: Task) {
    match task
    case Waiting => true
    case Fetching => true
    case Loading(m) => setup.fetch(name) == Ok(m)
    case CheckingRunning(m, u, pid) =>
      && setup.fetch(name) == Ok(m) && setup.load(m.packageName).Ok? && setup.skipRunning
      && setup.load(m.packageName).value.packageId == Some(pid)
      && u == ClassifyUpdate(setup.load(m.packageName).value.latestScanned, m.latest) && u != Unchanged
    case Enqueuing(m, u) =>
      && setup.fetch(name) == Ok(m) && setup.load(m.packageName).Ok?
      && u == ClassifyUpdate(setup.load(m.packageName).value.latestScanned, m.latest) && u != Unchanged
      && (setup.skipRunning && setup.load(m.packageName).value.packageId.Some? ==>
            setup.hasRunning(setup.load(m.packageName).value.packageId.value) == Ok(false))
    case Done => true
  }

  function Contributions(setup: Setup, tasks: seq<Task>, c: Counter): seq<nat>
    requires |tasks| == |setup.names|
  {
    seq(|tasks|, i requires 0 <= i < |tasks| => SoFar(setup, setup.names[i], tasks[i], c))
  }

  ghost predicate Consistent(setup: Setup, tick: Tick) {
    && |tick.tasks| == |setup.names|
    && (forall i :: 0 <= i < |tick.tasks| ==> OnCourse(setup, setup.names[i], tick.tasks[i]))
    && (forall c :: Count(tick.tally, c) == Sum(Contributions(setup, tick.tasks, c)))
    && InFlight(tick.tasks) <= setup.concurrency
  }

  /** Every write adds to a tally what it adds to an empty one. */
  lemma WritesAdd(t: Tally, name: string, exc: Exception, update: UpdateType, c: Counter)
    ensures Count(RecordedFailure(t, name, exc), c) == Count(t, c) + Count(RecordedFailure(NoTally, name, exc), c)
    ensures Count(CountedEnqueued(t, update), c) == Count(t, c) + Count(CountedEnqueued(NoTally, update), c)
    ensures Count(CountedChecked(t), c) == Count(t, c) + if c == Checked then 1 else 0
    ensures Count(CountedSkipped(t), c) == Count(t, c) + Count(CountedSkipped(NoTally), c)
    ensures Count(CountedUnchanged(t), c) == Count(t, c) + Count(CountedUnchanged(NoTally), c)
    ensures Count(NoTally, c) == 0
  {
  }

  ghost predicate Additive(c: Counter) {
    && (forall t: Tally, name, exc ::
          Count(RecordedFailure(t, name, exc), c) == Count(t, c) + Count(RecordedFailure(NoTally, name, exc), c))
    && (forall t: Tally, update ::
          Count(CountedEnqueued(t, update), c) == Count(t, c) + Count(CountedEnqueued(NoTally, update), c))
    && (forall t: Tally :: Count(CountedChecked(t), c) == Count(t, c) + if c == Checked then 1 else 0)
    && (forall t: Tally :: Count(CountedSkipped(t), c) == Count(t, c) + Count(CountedSkipped(NoTally), c))
    && (forall t: Tally :: Count(CountedUnchanged(t), c) == Count(t, c) + Count(CountedUnchanged(NoTally), c))
    && Count(NoTally, c) == 0
  }

  lemma AllAdditive(c: Counter)
    ensures Additive(c)
  {
    hide Count, CountedEnqueued, CountedUnchanged, CountedChecked, CountedSkipped, RecordedFailure;
    forall t: Tally, name, exc
      ensures Count(RecordedFailure(t, name, exc), c) == Count(t, c) + Count(RecordedFailure(NoTally, name, exc), c)
    {
      WritesAdd(t, name, exc, Unchanged, c);
    }
    forall t: Tally, update
      ensures Count(CountedEnqueued(t, update), c) == Count(t, c) + Count(CountedEnqueued(NoTally, update), c)
    {
      WritesAdd(t, "", Exception("", ""), update, c);
    }
    forall t: Tally
      ensures Count(CountedChecked(t), c) == Count(t, c) + if c == Checked then 1 else 0
      ensures Count(CountedSkipped(t), c) == Count(t, c) + Count(CountedSkipped(NoTally), c)
      ensures Count(CountedUnchanged(t), c) == Count(t, c) + Count(CountedUnchanged(NoTally), c)
    {
      WritesAdd(t, "", Exception("", ""), Unchanged, c);
    }
    WritesAdd(NoTally, "", Exception("", ""), Unchanged, c);
  }

  /** What a resumption adds to the tally is what the task has then contributed more than before. */
  ghost predicate Contributes(setup: Setup, name: string, task: Task, t: Tally, c: Counter)
    requires !task.Done?
  {
    var (task', t') := Advance(setup, name, task, t);
    && OnCourse(setup, name, task')
    && Count(t', c) + SoFar(setup, name, task, c) == Count(t, c) + SoFar(setup, name, task', c)
  }

  lemma EarlyContributes(setup: Setup, name: string, task: Task, t: Tally, c: Counter)
    requires (task.Waiting? || task.Fetching?) && OnCourse(setup, name, task)
    ensures Contributes(setup, name, task, t, c)
  {
    AllAdditive(c);
    hide Count, CountedEnqueued, CountedUnchanged, CountedChecked, CountedSkipped, RecordedFailure, ClassifyUpdate;
  }

  lemma LoadingContributes(setup: Setup, name: string, task: Task, t: Tally, c: Counter)
    requires task.Loading? && OnCourse(setup, name, task)
    ensures Contributes(setup, name, task, t, c)
  {
    AllAdditive(c);
    hide Count, CountedEnqueued, CountedUnchanged, CountedChecked, CountedSkipped, RecordedFailure, ClassifyUpdate;
  }

  lemma CheckingContributes(setup: Setup, name: string, task: Task, t: Tally, c: Counter)
    requires task.CheckingRunning? && OnCourse(setup, name, task)
    ensures Contributes(setup, name, task, t, c)
  {
    AllAdditive(c);
    hide Count, CountedEnqueued, CountedUnchanged, CountedChecked, CountedSkipped, RecordedFailure, ClassifyUpdate;
  }

  lemma EnqueuingContributes(setup: Setup, name: string, task: Task, t: Tally, c: Counter)
    requires task.Enqueuing? && OnCourse(setup, name, task)
    ensures Contributes(setup, name, task, t, c)
  {
    AllAdditive(c);
    hide Count, CountedEnqueued, CountedUnchanged, CountedChecked, CountedSkipped, RecordedFailure, ClassifyUpdate;
  }

  lemma AdvanceContributes(setup: Setup, name: string, task: Task, t: Tally, c: Counter)
    requires !task.Done? && OnCourse(setup, name, task)
    ensures Contributes(setup, name, task, t, c)
  {
    hide Contributes;
    match task
    case Loading(_) => LoadingContributes(setup, name, task, t, c);
    case CheckingRunning(_, _, _) => CheckingContributes(setup, name, task, t, c);
    case Enqueuing(_, _) => EnqueuingContributes(setup, name, task, t, c);
    case _ => EarlyContributes(setup, name, task, t, c);
  }

  lemma {:induction false} InFlightUpdate(tasks: seq<Task>, i: nat, task: Task)
    requires i < |tasks|
    ensures InFlight(tasks[i := task]) + (if tasks[i].Fetching? then 1 else 0)
            == InFlight(tasks) + (if task.Fetching? then 1 else 0)
  {
    if i > 0 {
      InFlightUpdate(tasks[1..], i - 1, task);
      assert tasks[i := task][1..] == tasks[1..][i - 1 := task];
    } else {
      assert tasks[i := task][1..] == tasks[1..];
    }
  }

  lemma {:induction false} NobodyFetches(tasks: seq<Task>)
    ensures (forall i :: 0 <= i < |tasks| ==> !tasks[i].Fetching?) <==> InFlight(tasks) == 0
  {
    if tasks != [] {
      NobodyFetches(tasks[1..]);
      assert forall i :: 1 <= i < |tasks| ==> tasks[i] == tasks[1..][i - 1];
    }
  }

  lemma {:induction false} SumOfNothing(ns: seq<nat>)
    requires forall i :: 0 <= i < |ns| ==> ns[i] == 0
    ensures Sum(ns) == 0
  {
    if ns != [] {
      SumOfNothing(ns[..|ns| - 1]);
    }
  }

  lemma StartConsistent(setup: Setup)
    ensures Consistent(setup, Start(setup))
  {
    NobodyFetches(Start(setup).tasks);
    forall c
      ensures Sum(Contributions(setup, Start(setup).tasks, c)) == 0
    {
      SumOfNothing(Contributions(setup, Start(setup).tasks, c));
    }
  }

  lemma TallyStaysSum(setup: Setup, tick: Tick, i: nat, c: Counter)
    requires |tick.tasks| == |setup.names| && Ready(setup, tick, i) && OnCourse(setup, setup.names[i], tick.tasks[i])
    requires Count(tick.tally, c) == Sum(Contributions(setup, tick.tasks, c))
    ensures var tick' := Resumed(setup, tick, i);
            OnCourse(setup, setup.names[i], tick'.tasks[i])
            && Count(tick'.tally, c) == Sum(Contributions(setup, tick'.tasks, c))
  {
    var tick' := Resumed(setup, tick, i);
    AdvanceContributes(setup, setup.names[i], tick.tasks[i], tick.tally, c);
    var before, after := Contributions(setup, tick.tasks, c), Contributions(setup, tick'.tasks, c);
    var n := SoFar(setup, setup.names[i], tick'.tasks[i], c);
    hide SoFar, Advance, OnCourse, Count;
    assert after == before[i := n];
    SumUpdate(before, i, n);
  }

  lemma ResumedConsistent(setup: Setup, tick: Tick, i: nat)
    requires Consistent(setup, tick) && Ready(setup, tick, i)
    ensures Consistent(setup, Resumed(setup, tick, i))
  {
    var tick' := Resumed(setup, tick, i);
    InFlightUpdate(tick.tasks, i, tick'.tasks[i]);
    assert tick.tasks[i].Waiting? <==> tick'.tasks[i].Fetching?;
    hide Advance, OnCourse, Contributions, Count, Sum;
    forall c
      ensures Count(tick'.tally, c) == Sum(Contributions(setup, tick'.tasks, c))
    {
      TallyStaysSum(setup, tick, i, c);
    }
    assert OnCourse(setup, setup.names[i], tick'.tasks[i]) by {
      TallyStaysSum(setup, tick, i, Checked);
    }
  }

  lemma {:induction false} ScheduleConsistent(setup: Setup, tick: Tick, schedule: seq<nat>)
    requires Consistent(setup, tick) && Schedule(setup, tick, schedule)
    ensures Consistent(setup, After(setup, tick, schedule))
    decreases |schedule|
  {
    if schedule != [] {
      ResumedConsistent(setup, tick, schedule[0]);
      hide Consistent;
      assert |tick.tasks| == |setup.names|;
      ScheduleConsistent(setup, Resumed(setup, tick, schedule[0]), schedule[1..]);
    }
  }

  // ---------- the sequential pass adds up the same contributions

  lemma ProcessAdds(setup: Setup, name: string, t: Tally, c: Counter)
    ensures Count(ProcessPackage(setup, name, t), c) == Count(t, c) + Full(setup, name, c)
  {
    AllAdditive(c);
    hide Count, CountedEnqueued, CountedUnchanged, CountedChecked, CountedSkipped, RecordedFailure;
  }

  function FullOfAll(setup: Setup, names: seq<string>, c: Counter): seq<nat> {
    seq(|names|, i requires 0 <= i < |names| => Full(setup, names[i], c))
  }

  lemma {:induction false} SequentialSum(setup: Setup, names: seq<string>, c: Counter)
    ensures Count(Sequential(setup, names), c) == Sum(FullOfAll(setup, names, c))
  {
    if names != [] {
      var last := |names| - 1;
      SequentialSum(setup, names[..last], c);
      ProcessAdds(setup, names[last], Sequential(setup, names[..last]), c);
      assert FullOfAll(setup, names, c)[..last] == FullOfAll(setup, names[..last], c);
      hide Full, ProcessPackage;
    }
  }

  lemma DoneIsSequential(setup: Setup, tick: Tick, c: Counter)
    requires Consistent(setup, tick) && AllDone(tick)
    ensures Count(tick.tally, c) == Count(Sequential(setup, setup.names), c) == Sum(FullOfAll(setup, setup.names, c))
  {
    SequentialSum(setup, setup.names, c);
    assert Contributions(setup, tick.tasks, c) == FullOfAll(setup, setup.names, c);
  }

  lemma SameTally(a: Tally, b: Tally)
    requires forall c :: Count(a, c) == Count(b, c)
    ensures a.(errors := b.errors) == b && multiset(a.errors) == multiset(b.errors)
  {
    assert Count(a, Checked) == Count(b, Checked) && Count(a, NewOnes) == Count(b, NewOnes);
    assert Count(a, UpdatedOnes) == Count(b, UpdatedOnes) && Count(a, UnchangedOnes) == Count(b, UnchangedOnes);
    assert Count(a, Skipped) == Count(b, Skipped) && Count(a, Failures) == Count(b, Failures);
    forall x
      ensures multiset(a.errors)[x] == multiset(b.errors)[x]
    {
      assert Count(a, Occurrences(x)) == Count(b, Occurrences(x));
    }
  }

  predicate AgreesWithSequential(setup: Setup, t: Tally) {
    var sequential := Sequential(setup, setup.names);
    t.(errors := sequential.errors) == sequential && multiset(t.errors) == multiset(sequential.errors)
  }

  lemma FinishedTickAgrees(setup: Setup, tick: Tick)
    requires Consistent(setup, tick) && AllDone(tick)
    ensures AgreesWithSequential(setup, tick.tally)
  {
    forall c
      ensures Count(tick.tally, c) == Count(Sequential(setup, setup.names), c)
    {
      DoneIsSequential(setup, tick, c);
    }
    hide Consistent, Sequential, AllDone;
    SameTally(tick.tally, Sequential(setup, setup.names));
  }

  /** Whatever the schedule, a finished tick has the counters of the sequential pass, and its errors in some order. */
  lemma ScheduleIsIrrelevant(setup: Setup, schedule: seq<nat>)
    requires Schedule(setup, Start(setup), schedule) && AllDone(After(setup, Start(setup), schedule))
    ensures AgreesWithSequential(setup, After(setup, Start(setup), schedule).tally)
  {
    StartConsistent(setup);
    ScheduleConsistent(setup, Start(setup), schedule);
    FinishedTickAgrees(setup, After(setup, Start(setup), schedule));
  }

  // ---------- every name is accounted for exactly once

  function Outcomes(setup: Setup, name: string): nat {
    Full(setup, name, NewOnes) + Full(setup, name, UpdatedOnes) + Full(setup, name, UnchangedOnes)
    + Full(setup, name, Skipped) + Full(setup, name, Failures)
  }

  lemma OneOutcome(setup: Setup, name: string)
    ensures Outcomes(setup, name) == 1
    ensures Full(setup, name, ErrorCount) == Full(setup, name, Failures)
    ensures Full(setup, name, Checked) == if setup.fetch(name).Ok? then 1 else 0
  {
  }

  function CountFetched(setup: Setup, names: seq<string>): nat {
    if names == [] then 0
    else CountFetched(setup, names[..|names| - 1]) + if setup.fetch(names[|names| - 1]).Ok? then 1 else 0
  }

  lemma FullOfAllLast(setup: Setup, names: seq<string>, c: Counter)
    requires names != []
    ensures var last := |names| - 1;
            Sum(FullOfAll(setup, names, c)) == Sum(FullOfAll(setup, names[..last], c)) + Full(setup, names[last], c)
  {
    var last := |names| - 1;
    assert FullOfAll(setup, names, c)[..last] == FullOfAll(setup, names[..last], c);
  }

  lemma {:induction false} SumOfOutcomes(setup: Setup, names: seq<string>)
    ensures Sum(FullOfAll(setup, names, NewOnes)) + Sum(FullOfAll(setup, names, UpdatedOnes))
            + Sum(FullOfAll(setup, names, UnchangedOnes)) + Sum(FullOfAll(setup, names, Skipped))
            + Sum(FullOfAll(setup, names, Failures)) == |names|
    ensures Sum(FullOfAll(setup, names, ErrorCount)) == Sum(FullOfAll(setup, names, Failures))
    ensures Sum(FullOfAll(setup, names, Checked)) == CountFetched(setup, names)
  {
    if names != [] {
      var last := |names| - 1;
      SumOfOutcomes(setup, names[..last]);
      OneOutcome(setup, names[last]);
      hide Full, Sum, FullOfAll;
      FullOfAllLast(setup, names, NewOnes);
      FullOfAllLast(setup, names, UpdatedOnes);
      FullOfAllLast(setup, names, UnchangedOnes);
      FullOfAllLast(setup, names, Skipped);
      FullOfAllLast(setup, names, Failures);
      FullOfAllLast(setup, names, ErrorCount);
      FullOfAllLast(setup, names, Checked);
    }
  }

  lemma EveryOutcomeOnce(setup: Setup, tick: Tick)
    requires Consistent(setup, tick) && AllDone(tick)
    ensures var t := tick.tally;
            && t.newCount + t.updatedCount + t.unchangedCount + t.skippedCount + t.failedCount == |setup.names|
            && t.failedCount == |t.errors| && t.checkedCount == CountFetched(setup, setup.names)
  {
    SumOfOutcomes(setup, setup.names);
    hide Sum, FullOfAll, Consistent, AllDone, Sequential, CountFetched;
    DoneIsSequential(setup, tick, Checked);
    DoneIsSequential(setup, tick, NewOnes);
    DoneIsSequential(setup, tick, UpdatedOnes);
    DoneIsSequential(setup, tick, UnchangedOnes);
    DoneIsSequential(setup, tick, Skipped);
    DoneIsSequential(setup, tick, Failures);
    DoneIsSequential(setup, tick, ErrorCount);
  }

  /** new + updated + unchanged + skipped + failed is the number of names, and every failure has its error. */
  lemma EveryNameOnce(setup: Setup, schedule: seq<nat>)
    requires Schedule(setup, Start(setup), schedule) && AllDone(After(setup, Start(setup), schedule))
    ensures var t := After(setup, Start(setup), schedule).tally;
            && t.newCount + t.updatedCount + t.unchangedCount + t.skippedCount + t.failedCount == |setup.names|
            && t.failedCount == |t.errors| && t.checkedCount == CountFetched(setup, setup.names)
  {
    StartConsistent(setup);
    ScheduleConsistent(setup, Start(setup), schedule);
    hide Consistent, After, Schedule, AllDone, CountFetched;
    EveryOutcomeOnce(setup, After(setup, Start(setup), schedule));
  }

  // ---------- what each counter counts

  predicate Loaded(setup: Setup, name: string) {
    setup.fetch(name).Ok? && setup.load(setup.fetch(name).value.packageName).Ok?
  }

  function StoredFor(setup: Setup, name: string): PackageScanState
    requires Loaded(setup, name)
  {
    setup.load(setup.fetch(name).value.packageName).value
  }

  /** The registry's latest version is the stored one. */
  predicate IsUnchanged(setup: Setup, name: string) {
    Loaded(setup, name) && StoredFor(setup, name).latestScanned == Some(setup.fetch(name).value.latest)
  }

  /** It is not, and what is asked about running scans, if anything, is answered like this. */
  predicate IsChanged(setup: Setup, name: string, answer: Option<Result<bool, Exception>>) {
    && Loaded(setup, name) && StoredFor(setup, name).latestScanned != Some(setup.fetch(name).value.latest)
    && answer == if setup.skipRunning && StoredFor(setup, name).packageId.Some?
                 then Some(setup.hasRunning(StoredFor(setup, name).packageId.value)) else None
  }

  predicate IsSkipped(setup: Setup, name: string) { IsChanged(setup, name, Some(Ok(true))) }

  /** An enqueue is attempted. */
  predicate IsDue(setup: Setup, name: string) {
    IsChanged(setup, name, None) || IsChanged(setup, name, Some(Ok(false)))
  }

  predicate IsEnqueued(setup: Setup, name: string, known: bool) {
    && IsDue(setup, name) && setup.enqueue(setup.fetch(name).value.packageName).Ok?
    && StoredFor(setup, name).latestScanned.Some? == known
  }

  /** The first thing asked that raises, raises this. */
  predicate FailsWith(setup: Setup, name: string, exc: Exception) {
    || setup.fetch(name) == Err(exc)
    || (setup.fetch(name).Ok? && setup.load(setup.fetch(name).value.packageName) == Err(exc))
    || IsChanged(setup, name, Some(Err(exc)))
    || (IsDue(setup, name) && setup.enqueue(setup.fetch(name).value.packageName) == Err(exc))
  }

  ghost predicate Fails(setup: Setup, name: string) { exists exc :: FailsWith(setup, name, exc) }

  ghost predicate FailsAs(setup: Setup, name: string, x: PackageMonitorError) {
    exists exc :: FailsWith(setup, name, exc) && x.packageName == name
                  && x.error == if exc.text == "" then exc.className else exc.text
  }

  /** The names a counter counts. */
  ghost predicate Counts(setup: Setup, name: string, c: Counter) {
    match c
    case Checked => setup.fetch(name).Ok?
    case NewOnes => IsEnqueued(setup, name, false)
    case UpdatedOnes => IsEnqueued(setup, name, true)
    case UnchangedOnes => IsUnchanged(setup, name)
    case Skipped => IsSkipped(setup, name)
    case Failures => Fails(setup, name)
    case ErrorCount => Fails(setup, name)
    case Occurrences(x) => FailsAs(setup, name, x)
  }

  /** The one exception a name fails with, if any. */
  function FailureOf(setup: Setup, name: string): Option<Exception> {
    match setup.fetch(name)
    case Err(exc) => Some(exc)
    case Ok(metadata) =>
      match setup.load(metadata.packageName)
      case Err(exc) => Some(exc)
      case Ok(state) =>
        if state.latestScanned == Some(metadata.latest) then None
        else
          match if setup.skipRunning && state.packageId.Some? then setup.hasRunning(state.packageId.value)
                else Ok(false)
          case Err(exc) => Some(exc)
          case Ok(true) => None
          case Ok(false) =>
            match setup.enqueue(metadata.packageName) case Err(exc) => Some(exc) case Ok(_) => None
  }

  lemma FailureExactly(setup: Setup, name: string, exc: Exception)
    ensures FailsWith(setup, name, exc) <==> FailureOf(setup, name) == Some(exc)
  {
  }

  lemma FailureIsCounted(setup: Setup, name: string, c: Counter)
    ensures c in {Failures, ErrorCount} ==> Full(setup, name, c) == if FailureOf(setup, name).Some? then 1 else 0
    ensures c.Occurrences? ==>
              Full(setup, name, c)
              == if FailureOf(setup, name).Some? && c.x == ErrorOf(name, FailureOf(setup, name).value) then 1 else 0
  {
    hide FailsWith, Fails, FailsAs, Counts;
    if c.Failures? {
    } else if c.ErrorCount? {
    }
  }

  lemma FullExactly(setup: Setup, name: string, c: Counter)
    ensures Full(setup, name, c) == if Counts(setup, name, c) then 1 else 0
  {
    FailureIsCounted(setup, name, c);
    var failure := FailureOf(setup, name);
    if c.Failures? || c.ErrorCount? || c.Occurrences? {
      forall exc
        ensures FailsWith(setup, name, exc) <==> failure == Some(exc)
      {
        FailureExactly(setup, name, exc);
      }
      hide FailsWith, FailureOf, Full;
    }
  }

  ghost function CountWhere(setup: Setup, names: seq<string>, c: Counter): nat {
    if names == [] then 0
    else CountWhere(setup, names[..|names| - 1], c) + if Counts(setup, names[|names| - 1], c) then 1 else 0
  }

  lemma {:induction false} SumIsCount(setup: Setup, names: seq<string>, c: Counter)
    ensures Sum(FullOfAll(setup, names, c)) == CountWhere(setup, names, c)
  {
    if names != [] {
      SumIsCount(setup, names[..|names| - 1], c);
      FullOfAllLast(setup, names, c);
      FullExactly(setup, names[|names| - 1], c);
      hide Full, Counts, FullOfAll, Sum;
    }
  }

  /** After any schedule every counter is the number of names it counts, and so is every error's multiplicity. */
  lemma CountersExactly(setup: Setup, schedule: seq<nat>, c: Counter)
    requires Schedule(setup, Start(setup), schedule) && AllDone(After(setup, Start(setup), schedule))
    ensures Count(After(setup, Start(setup), schedule).tally, c) == CountWhere(setup, setup.names, c)
  {
    StartConsistent(setup);
    ScheduleConsistent(setup, Start(setup), schedule);
    DoneIsSequential(setup, After(setup, Start(setup), schedule), c);
    SumIsCount(setup, setup.names, c);
  }

  // ---------- the semaphore

  function FetchingIn(tasks: seq<Task>): set<nat> { set i: nat | i < |tasks| && tasks[i].Fetching? }

  lemma {:induction false} InFlightCounts(tasks: seq<Task>)
    ensures InFlight(tasks) == |FetchingIn(tasks)|
  {
    if tasks != [] {
      var last := |tasks| - 1;
      InFlightCounts(tasks[..last]);
      InFlightOfLast(tasks);
      assert FetchingIn(tasks) == FetchingIn(tasks[..last]) + if tasks[last].Fetching? then {last} else {};
    }
  }

  lemma {:induction false} InFlightOfLast(tasks: seq<Task>)
    requires tasks != []
    ensures InFlight(tasks) == InFlight(tasks[..|tasks| - 1]) + if tasks[|tasks| - 1].Fetching? then 1 else 0
  {
    if |tasks| > 1 {
      InFlightOfLast(tasks[1..]);
      assert tasks[1..][..|tasks| - 2] == tasks[..|tasks| - 1][1..];
    }
  }

  /** At no point of any schedule are more than `metadata_concurrency` fetches in flight. */
  lemma FetchesAreBounded(setup: Setup, schedule: seq<nat>)
    requires Schedule(setup, Start(setup), schedule)
    ensures |FetchingIn(After(setup, Start(setup), schedule).tasks)| <= setup.concurrency
  {
    StartConsistent(setup);
    ScheduleConsistent(setup, Start(setup), schedule);
    InFlightCounts(After(setup, Start(setup), schedule).tasks);
  }

  lemma SomebodyIsReady(setup: Setup, tick: Tick)
    requires Consistent(setup, tick) && !AllDone(tick) && setup.concurrency > 0
    ensures exists i: nat :: Ready(setup, tick, i)
  {
    NobodyFetches(tick.tasks);
    var i :| 0 <= i < |tick.tasks| && !tick.tasks[i].Done?;
    if InFlight(tick.tasks) == 0 {
      assert Ready(setup, tick, i);
    } else {
      var j :| 0 <= j < |tick.tasks| && tick.tasks[j].Fetching?;
      assert Ready(setup, tick, j);
    }
  }

  /** After any schedule an unfinished tick can go on, except that a semaphore without permits lets nobody start. */
  lemma StuckOnlyWithoutPermits(setup: Setup, schedule: seq<nat>)
    requires Schedule(setup, Start(setup), schedule)
    ensures var tick := After(setup, Start(setup), schedule);
            (forall i: nat :: !Ready(setup, tick, i)) && !AllDone(tick) <==> setup.concurrency == 0 && setup.names != []
  {
    StartConsistent(setup);
    ScheduleConsistent(setup, Start(setup), schedule);
    if setup.concurrency == 0 {
      NothingStarts(setup, schedule);
    } else if !AllDone(After(setup, Start(setup), schedule)) {
      SomebodyIsReady(setup, After(setup, Start(setup), schedule));
    }
  }

  lemma NothingStarts(setup: Setup, schedule: seq<nat>)
    requires setup.concurrency == 0 && Schedule(setup, Start(setup), schedule)
    ensures schedule == []
  {
  }

  // ---------- every schedule ends

  function Remaining(task: Task): nat {
    match task case Waiting => 5 case Fetching => 4 case Loading(_) => 3 case CheckingRunning(_, _, _) => 2
      case Enqueuing(_, _) => 1 case Done => 0
  }

  function RemainingOf(tasks: seq<Task>): nat {
    if tasks == [] then 0 else Remaining(tasks[0]) + RemainingOf(tasks[1..])
  }

  lemma {:induction false} RemainingUpdate(tasks: seq<Task>, i: nat, task: Task)
    requires i < |tasks|
    ensures RemainingOf(tasks[i := task]) + Remaining(tasks[i]) == RemainingOf(tasks) + Remaining(task)
  {
    if i > 0 {
      RemainingUpdate(tasks[1..], i - 1, task);
      assert tasks[i := task][1..] == tasks[1..][i - 1 := task];
    } else {
      assert tasks[i := task][1..] == tasks[1..];
    }
  }

  lemma {:induction false} RemainingAtStart(tasks: seq<Task>)
    requires forall i :: 0 <= i < |tasks| ==> tasks[i].Waiting?
    ensures RemainingOf(tasks) == 5 * |tasks|
  {
    if tasks != [] {
      RemainingAtStart(tasks[1..]);
    }
  }

  lemma AdvanceShortens(setup: Setup, name: string, task: Task, t: Tally)
    requires !task.Done?
    ensures Remaining(Advance(setup, name, task, t).0) < Remaining(task)
  {
  }

  lemma {:induction false} ScheduleLength(setup: Setup, tick: Tick, schedule: seq<nat>)
    requires |tick.tasks| == |setup.names| && Schedule(setup, tick, schedule)
    ensures |schedule| + RemainingOf(After(setup, tick, schedule).tasks) <= RemainingOf(tick.tasks)
    decreases |schedule|
  {
    if schedule != [] {
      var i := schedule[0];
      var tick' := Resumed(setup, tick, i);
      RemainingUpdate(tick.tasks, i, tick'.tasks[i]);
      AdvanceShortens(setup, setup.names[i], tick.tasks[i], tick.tally);
      ScheduleLength(setup, tick', schedule[1..]);
    }
  }

  /** No schedule resumes tasks more than five times a name. */
  lemma SchedulesEnd(setup: Setup, schedule: seq<nat>)
    requires Schedule(setup, Start(setup), schedule)
    ensures |schedule| <= 5 * |setup.names|
  {
    ScheduleLength(setup, Start(setup), schedule);
    RemainingAtStart(Start(setup).tasks);
  }

  // ---------- the use case

  class MonitorUpdatesResult {
    var checkedCount: nat
    var enqueuedNewCount: nat
    var enqueuedUpdatedCount: nat
    var unchangedCount: nat
    var skippedRunningCount: nat
    var failedCount: nat
    var errors: seq<PackageMonitorError>

    constructor ()
      ensures Contents() == NoTally
    {
      checkedCount, enqueuedNewCount, enqueuedUpdatedCount := 0, 0, 0;
      unchangedCount, skippedRunningCount, failedCount, errors := 0, 0, 0, [];
    }

    function Contents(): Tally
      reads this
    {
      Tally(checkedCount, enqueuedNewCount, enqueuedUpdatedCount, unchangedCount, skippedRunningCount,
            failedCount, errors)
    }

    method RecordFailure(packageName: string, exc: Exception)
      modifies this
      ensures Contents() == RecordedFailure(old(Contents()), packageName, exc)
    {
      failedCount := failedCount + 1;
      var errorMessage := if exc.text != "" then exc.text else exc.className;
      errors := errors + [PackageMonitorError(packageName, errorMessage)];
    }
  }

  class MonitorUpdatesUseCase {
    const setup: Setup

    constructor (setup: Setup)
      ensures this.setup == setup
    {
      this.setup := setup;
    }

    /** Run one task of `_process_package` up to its next await. */
    method ResumeTask(packageName: string, task: Task, result: MonitorUpdatesResult) returns (next: Task)
      requires !task.Done?
      modifies result
      ensures (next, result.Contents()) == Advance(setup, packageName, task, old(result.Contents()))
    {
      match task
      case Waiting =>
        next := Fetching;
      case Fetching =>
        match setup.fetch(packageName) {
          case Err(exc) => result.RecordFailure(packageName, exc); next := Done;
          case Ok(metadata) => result.checkedCount := result.checkedCount + 1; next := Loading(metadata);
        }
      case Loading(metadata) =>
        match setup.load(metadata.packageName) {
          case Err(exc) => result.RecordFailure(packageName, exc); next := Done;
          case Ok(state) =>
            var update := ClassifyUpdate(state.latestScanned, metadata.latest);
            if update == Unchanged {
              result.unchangedCount := result.unchangedCount + 1;
              next := Done;
            } else if setup.skipRunning && state.packageId.Some? {
              next := CheckingRunning(metadata, update, state.packageId.value);
            } else {
              next := Enqueuing(metadata, update);
            }
        }
      case CheckingRunning(metadata, update, packageId) =>
        match setup.hasRunning(packageId) {
          case Err(exc) => result.RecordFailure(packageName, exc); next := Done;
          case Ok(running) =>
            if running {
              result.skippedRunningCount := result.skippedRunningCount + 1;
              next := Done;
            } else {
              next := Enqueuing(metadata, update);
            }
        }
      case Enqueuing(metadata, update) =>
        next := Done;
        match setup.enqueue(metadata.packageName) {
          case Err(exc) => result.RecordFailure(packageName, exc);
          case Ok(_) =>
            if update == NewPackage {
              result.enqueuedNewCount := result.enqueuedNewCount + 1;
            } else {
              result.enqueuedUpdatedCount := result.enqueuedUpdatedCount + 1;
            }
        }
    }

    /** The event loop picks any task that can run; the outcome is the sequential one for every choice it makes. */
    method ExecuteOnce() returns (result: MonitorUpdatesResult)
      requires setup.concurrency > 0
      ensures fresh(result)
      ensures AgreesWithSequential(setup, result.Contents())
    {
      hide Consistent, AgreesWithSequential, Advance, InFlight, RemainingOf;
      result := new MonitorUpdatesResult();
      var tasks := Start(setup).tasks;
      StartConsistent(setup);
      while exists i :: 0 <= i < |tasks| && !tasks[i].Done?
        invariant fresh(result) && |tasks| == |setup.names|
        invariant Consistent(setup, Tick(tasks, result.Contents()))
        decreases RemainingOf(tasks)
      {
        ghost var tick := Tick(tasks, result.Contents());
        SomebodyIsReady(setup, tick);
        var i: nat :| i < |tasks| && !tasks[i].Done? && (tasks[i].Waiting? ==> InFlight(tasks) < setup.concurrency);
        var next := ResumeTask(setup.names[i], tasks[i], result);
        ResumedConsistent(setup, tick, i);
        RemainingUpdate(tasks, i, next);
        AdvanceShortens(setup, setup.names[i], tick.tasks[i], tick.tally);
        tasks := tasks[i := next];
      }
      FinishedTickAgrees(setup, Tick(tasks, result.Contents()));
    }
  }
}
