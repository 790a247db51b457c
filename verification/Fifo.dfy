/** Queued rows of a package are claimed first come, first served. */
module Fifo {
  import opened Tables
  import opened Transactions
  import opened Lifecycle
  import opened Ownership
  import opened ScanRows
  import opened Conservation

  /** The queued rows of the package that were created before this one. */
  function Ahead(scans: Scans, pid: PackageId, sid: ScanId): set<ScanId>
    requires sid in scans
  {
    set other | other in QueuedScans(scans, pid) && Before(scans, other, sid)
  }

  /** created_at does not decrease, and ids break ties. */
  ghost predicate InOrder(s: State, step: Step) {
    step.Enqueue? ==> forall r :: r in s.db.scans ==>
      s.db.scans[r].createdAt < step.now || (s.db.scans[r].createdAt == step.now && r < step.sid)
  }

  predicate ClaimsFor(s: State, step: Step, pid: PackageId) {
    && step.ClaimRow? && step.e in s.execs && s.execs[step.e].message.name in s.db.packageIds
    && s.db.packageIds[s.execs[step.e].message.name] == pid
  }

  // ---------- what a write does to the rows ahead

  lemma AheadUnchanged(scans: Scans, sid: ScanId, row: Scan, pid: PackageId, mine: ScanId)
    requires IsQueued(scans, pid, mine)
    requires if sid in scans
             then (scans[sid].status == Queued <==> row.status == Queued)
                  && row.packageId == scans[sid].packageId && row.createdAt == scans[sid].createdAt
             else row.status != Queued || row.packageId != pid
                  || scans[mine].createdAt < row.createdAt || (scans[mine].createdAt == row.createdAt && mine < sid)
    ensures IsQueued(scans[sid := row], pid, mine) && Ahead(scans[sid := row], pid, mine) == Ahead(scans, pid, mine)
  {
  }

  lemma OtherPackageTaken(scans: Scans, sid: ScanId, row: Scan, pid: PackageId, mine: ScanId)
    requires IsQueued(scans, pid, mine) && row.packageId != pid && row.status != Queued
    requires sid in scans ==> scans[sid].packageId == row.packageId
    ensures IsQueued(scans[sid := row], pid, mine) && Ahead(scans[sid := row], pid, mine) == Ahead(scans, pid, mine)
  {
  }

  /** Taking the next queued row takes this one if nothing is ahead, and shortens the line otherwise. */
  lemma NextTaken(scans: Scans, sid: ScanId, row: Scan, pid: PackageId, mine: ScanId)
    requires IsQueued(scans, pid, mine) && IsNextQueued(scans, pid, sid)
    requires row.packageId == pid && row.status == Running && row.createdAt == scans[sid].createdAt
    ensures Ahead(scans, pid, mine) == {} <==> sid == mine
    ensures sid != mine ==>
              && IsQueued(scans[sid := row], pid, mine)
              && |Ahead(scans[sid := row], pid, mine)| == |Ahead(scans, pid, mine)| - 1
  {
    if sid != mine {
      assert sid in Ahead(scans, pid, mine);
      assert Ahead(scans[sid := row], pid, mine) == Ahead(scans, pid, mine) - {sid};
    }
  }

  // ---------- one step

  lemma OtherClaimKeepsLine(s: State, step: Step, pid: PackageId, mine: ScanId)
    requires Inv(s) && Enabled(s, step) && step.ClaimRow? && !ClaimsFor(s, step, pid)
    requires IsQueued(s.db.scans, pid, mine)
    ensures var scans' := Next(s, step).db.scans;
            IsQueued(scans', pid, mine) && Ahead(scans', pid, mine) == Ahead(s.db.scans, pid, mine)
  {
    ClaimTakesOrCreates(s, step.e, step.pid, step.sid, step.now);
    var c := ClaimTx(s.db, s.execs[step.e].message.name, step.pid, step.sid, step.now);
    hide ClaimTx, Inv;
    OtherPackageTaken(s.db.scans, c.scan, c.db.scans[c.scan], pid, mine);
  }

  /** A write that is not a claim leaves the line as it is; rows created later join behind. */
  lemma WriteKeepsLine(scans: Scans, scans': Scans, allowed: set<Write>, pid: PackageId, mine: ScanId)
    requires OneWrite(scans, scans', allowed) && Claiming !in allowed && IsQueued(scans, pid, mine)
    requires forall sid :: sid in scans' && sid !in scans ==>
               scans[mine].createdAt < scans'[sid].createdAt
               || (scans[mine].createdAt == scans'[sid].createdAt && mine < sid)
    ensures IsQueued(scans', pid, mine) && Ahead(scans', pid, mine) == Ahead(scans, pid, mine)
  {
    if scans' != scans {
      var sid, write :| Written(scans, scans', sid, write) && write in allowed;
      AheadUnchanged(scans, sid, scans'[sid], pid, mine);
    }
  }

  lemma NewRowsAreLast(s: State, step: Step, sid: ScanId)
    requires Inv(s) && Enabled(s, step) && !step.ClaimRow?
    ensures sid in Next(s, step).db.scans && sid !in s.db.scans ==>
              step.Enqueue? && sid == step.sid && Next(s, step).db.scans[sid].createdAt == step.now
  {
    if step.Enqueue? {
      hide Inv;
    } else {
      WritesAreLegal(s, step);
      hide Inv, Next, Enabled;
    }
  }

  /** A step that is not a claim for the package keeps the row queued, with the same rows ahead. */
  lemma LineKept(s: State, step: Step, pid: PackageId, mine: ScanId)
    requires Inv(s) && Enabled(s, step) && InOrder(s, step) && !ClaimsFor(s, step, pid)
    requires IsQueued(s.db.scans, pid, mine)
    ensures var scans' := Next(s, step).db.scans;
            IsQueued(scans', pid, mine) && Ahead(scans', pid, mine) == Ahead(s.db.scans, pid, mine)
  {
    if step.ClaimRow? {
      OtherClaimKeepsLine(s, step, pid, mine);
    } else {
      hide Inv, OneWrite;
      WritesAreLegal(s, step);
      var scans' := Next(s, step).db.scans;
      forall sid | sid in scans' && sid !in s.db.scans
        ensures s.db.scans[mine].createdAt < scans'[sid].createdAt
                || (s.db.scans[mine].createdAt == scans'[sid].createdAt && mine < sid)
      {
        NewRowsAreLast(s, step, sid);
      }
      hide Next, Enabled, InOrder;
      WriteKeepsLine(s.db.scans, scans', WritesOf(step), pid, mine);
    }
  }

  /** A claim for the package takes the row if nothing is ahead of it, and otherwise moves it up by one. */
  lemma LineMoves(s: State, step: Step, pid: PackageId, mine: ScanId)
    requires Inv(s) && Enabled(s, step) && ClaimsFor(s, step, pid) && IsQueued(s.db.scans, pid, mine)
    ensures var s' := Next(s, step);
            if |Ahead(s.db.scans, pid, mine)| == 0
            then OwnedBy(s'.execs, mine, step.e) && s'.db.scans[mine].status == Running
            else IsQueued(s'.db.scans, pid, mine)
                 && |Ahead(s'.db.scans, pid, mine)| == |Ahead(s.db.scans, pid, mine)| - 1
  {
    ClaimTakesOrCreates(s, step.e, step.pid, step.sid, step.now);
    hide Inv;
    assert mine in QueuedScans(s.db.scans, pid);
    var c := ClaimTx(s.db, s.execs[step.e].message.name, step.pid, step.sid, step.now);
    NextTaken(s.db.scans, c.scan, c.db.scans[c.scan], pid, mine);
  }

  // ---------- whole runs

  ghost predicate InOrderRun(s: State, steps: seq<Step>)
    requires ValidRun(s, steps)
    decreases |steps|
  {
    steps == [] || (InOrder(s, steps[0]) && InOrderRun(Next(s, steps[0]), steps[1..]))
  }

  /** How many claims the run makes for the package. */
  ghost function Claims(s: State, steps: seq<Step>, pid: PackageId): nat
    requires ValidRun(s, steps)
    decreases |steps|
  {
    if steps == [] then 0
    else (if ClaimsFor(s, steps[0], pid) then 1 else 0) + Claims(Next(s, steps[0]), steps[1..], pid)
  }

  lemma {:induction false} WaitsItsTurn(s: State, steps: seq<Step>, pid: PackageId, mine: ScanId)
    requires Inv(s) && ValidRun(s, steps) && InOrderRun(s, steps) && IsQueued(s.db.scans, pid, mine)
    requires Claims(s, steps, pid) <= |Ahead(s.db.scans, pid, mine)|
    ensures var scans' := Run(s, steps).db.scans;
            && IsQueued(scans', pid, mine)
            && |Ahead(scans', pid, mine)| == |Ahead(s.db.scans, pid, mine)| - Claims(s, steps, pid)
    ensures Inv(Run(s, steps))
    decreases |steps|
  {
    if steps != [] {
      hide Inv, Next, Enabled, ClaimsFor, InOrder, Ahead, IsQueued;
      InvNext(s, steps[0]);
      if ClaimsFor(s, steps[0], pid) {
        LineMoves(s, steps[0], pid, mine);
      } else {
        LineKept(s, steps[0], pid, mine);
      }
      WaitsItsTurn(Next(s, steps[0]), steps[1..], pid, mine);
    }
  }

  /**
   A row with k queued rows ahead of it stays queued through the next k claims for its package, and the
   (k+1)-th claim takes it, whatever else happens in between.
   */
  lemma ClaimedInTurn(s: State, steps: seq<Step>, step: Step, pid: PackageId, mine: ScanId)
    requires Inv(s) && ValidRun(s, steps) && InOrderRun(s, steps) && IsQueued(s.db.scans, pid, mine)
    requires Enabled(Run(s, steps), step) && ClaimsFor(Run(s, steps), step, pid)
    requires Claims(s, steps, pid) == |Ahead(s.db.scans, pid, mine)|
    ensures IsQueued(Run(s, steps).db.scans, pid, mine)
    ensures OwnedBy(Next(Run(s, steps), step).execs, mine, step.e)
    ensures Next(Run(s, steps), step).db.scans[mine].status == Running
  {
    hide Inv, Next, Enabled, ClaimsFor, InOrder, Ahead;
    WaitsItsTurn(s, steps, pid, mine);
    LineMoves(Run(s, steps), step, pid, mine);
  }
}
