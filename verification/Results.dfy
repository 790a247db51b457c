/** Stored findings against stored scores: replace_findings looks at no status, and yet they agree. */
module Results {
  import opened Wrappers
  import opened Scoring
  import opened Tables
  import opened Transactions
  import opened Lifecycle
  import opened Ownership
  import opened ScanRows
  import opened Strikes

  ghost predicate FindingsReferToScans(findings: seq<FindingRow>, scans: Scans) {
    forall i :: 0 <= i < |findings| ==> findings[i].scanId in scans
  }

  ghost predicate DistinctIds(findings: seq<FindingRow>) {
    forall i, j :: 0 <= i < j < |findings| ==> findings[i].id != findings[j].id
  }

  /** A completed scan is scored by exactly its stored findings; any other scan that was not struck has none. */
  ghost predicate Agree(findings: seq<FindingRow>, scans: Scans, struck: set<ScanId>) {
    forall r :: r in scans ==>
      && (scans[r].status == Completed ==> scans[r].score == Some(CalculateScore(FindingsOf(findings, r))))
      && (scans[r].status != Completed && r !in struck ==> FindingsOf(findings, r) == [])
  }

  ghost predicate ResultsOk(findings: seq<FindingRow>, scans: Scans, struck: set<ScanId>) {
    FindingsReferToScans(findings, scans) && DistinctIds(findings) && Agree(findings, scans, struck)
  }

  lemma {:induction false} NoFindingsForNewScan(findings: seq<FindingRow>, scans: Scans, sid: ScanId)
    requires FindingsReferToScans(findings, scans) && sid !in scans
    ensures FindingsOf(findings, sid) == []
  {
    if findings != [] {
      assert findings[0].scanId in scans;
      NoFindingsForNewScan(findings[1..], scans, sid);
    }
  }

  /** Agreement survives any legal write that does not complete a scan. */
  lemma WriteKeepsResults(findings: seq<FindingRow>, scans: Scans, scans': Scans, struck: set<ScanId>,
                          struck': set<ScanId>,
                          allowed: set<Write>)
    requires ResultsOk(findings, scans, struck) && struck <= struck'
    requires OneWrite(scans, scans', allowed) && Completion !in allowed
    ensures ResultsOk(findings, scans', struck')
  {
    if scans' != scans {
      var sid, write :| Written(scans, scans', sid, write);
      if sid !in scans {
        NoFindingsForNewScan(findings, scans, sid);
      }
      hide FindingsOf, CalculateScore;
      assert forall r :: r in scans' && r != sid ==> r in scans && scans'[r] == scans[r];
      assert sid in scans ==> scans'[sid].status != Completed && scans[sid].status != Completed;
    }
  }

  lemma {:induction false} WithoutScanRows(rows: seq<FindingRow>, sid: ScanId, known: set<FindingRow>)
    requires forall i :: 0 <= i < |rows| ==> rows[i] in known
    requires DistinctIds(rows)
    ensures forall i :: 0 <= i < |WithoutScan(rows, sid)| ==> WithoutScan(rows, sid)[i] in known
    ensures forall i :: 0 <= i < |WithoutScan(rows, sid)| ==> WithoutScan(rows, sid)[i] in rows
    ensures DistinctIds(WithoutScan(rows, sid))
  {
    if rows != [] {
      WithoutScanRows(rows[1..], sid, known);
    }
  }

  lemma ReplaceKeepsRows(db: Db, sid: ScanId, findings: seq<Finding>, ids: seq<FindingId>, now: Time)
    requires |ids| == |findings| && FreshIds(db.findings, ids) && sid in db.scans
    requires FindingsReferToScans(db.findings, db.scans) && DistinctIds(db.findings)
    ensures var rows := ReplaceFindings(db, sid, findings, ids, now).findings;
            FindingsReferToScans(rows, db.scans) && DistinctIds(rows)
  {
    var kept := WithoutScan(db.findings, sid);
    WithoutScanRows(db.findings, sid, set row | row in db.findings);
    forall i, k | 0 <= i < |kept| && 0 <= k < |ids|
      ensures kept[i].id != ids[k]
    {
      assert kept[i] in db.findings;
    }
    forall i | 0 <= i < |kept|
      ensures kept[i].scanId in db.scans
    {
      assert kept[i] in db.findings;
    }
  }

  /** The final transaction: completing stores score and findings together, and on a struck row only the findings. */
  lemma FinaliseKeepsResults(s: State, e: nat, findings: seq<Finding>, ids: seq<FindingId>, now: Time,
                             raised: Option<string>)
    requires Inv(s) && CanFinalise(s, e, findings, ids) && ResultsOk(s.db.findings, s.db.scans, s.hist.struck)
    ensures var s' := OnFinalise(s, e, findings, ids, now, raised);
            ResultsOk(s'.db.findings, s'.db.scans, s'.hist.struck)
  {
    Facts(s, e);
    hide Inv;
    var v := s.execs[e].stage;
    FinalTxWrites(s.db, v.pid, v.scan, v.latest, findings, ids, now);
    ReplaceKeepsRows(s.db, v.scan, findings, ids, now);
    hide FinalTx;
    var s' := OnFinalise(s, e, findings, ids, now, raised);
    forall r | r in s'.db.scans
      ensures s'.db.scans[r].status == Completed ==>
                s'.db.scans[r].score == Some(CalculateScore(FindingsOf(s'.db.findings, r)))
      ensures s'.db.scans[r].status != Completed && r !in s'.hist.struck ==> FindingsOf(s'.db.findings, r) == []
    {
      ReplaceFindingsExact(s.db, v.scan, findings, ids, now, r);
    }
    hide FindingsOf, CalculateScore, ReplaceFindings;
  }

  /**
   The final transaction completes its scan exactly if the row is still running, that is, was not struck; the findings
   are stored and the package is marked either way.
   */
  lemma FinaliseExact(s: State, e: nat, findings: seq<Finding>, ids: seq<FindingId>, now: Time, raised: Option<string>)
    requires Inv(s) && CanFinalise(s, e, findings, ids)
    ensures var v, db' := s.execs[e].stage, OnFinalise(s, e, findings, ids, now, raised).db;
            && v.scan in s.db.scans && v.scan in db'.scans && v.pid in db'.packages
            && (db'.scans[v.scan].status == Completed <==> s.db.scans[v.scan].status == Running)
            && (s.db.scans[v.scan].status == Running <==> v.scan !in s.hist.struck)
            && FindingsOf(db'.findings, v.scan) == findings
            && db'.packages[v.pid].latestScanned == Some(v.latest)
  {
    var v := s.execs[e].stage;
    assert StageOk(s.db.packageIds, s.db.scans, s.hist.struck, s.execs[e].message.name, v);
    Facts(s, e);
    hide Inv;
    FinalTxWrites(s.db, v.pid, v.scan, v.latest, findings, ids, now);
    ReplaceFindingsExact(s.db, v.scan, findings, ids, now, v.scan);
    hide FinalTx, FindingsOf, ReplaceFindings, CalculateScore, CalculateRiskLevel;
  }

  lemma OtherStepsKeepFindings(s: State, step: Step)
    requires Enabled(s, step) && !step.Finalise?
    ensures Next(s, step).db.findings == s.db.findings
  {
    hide WorkedOn;
  }

  lemma ResultsNext(s: State, step: Step)
    requires Inv(s) && Enabled(s, step) && ResultsOk(s.db.findings, s.db.scans, s.hist.struck)
    ensures var s' := Next(s, step); ResultsOk(s'.db.findings, s'.db.scans, s'.hist.struck)
  {
    hide Inv, ResultsOk, OneWrite;
    if step.Finalise? {
      FinaliseKeepsResults(s, step.e, step.findings, step.ids, step.now, step.raised);
    } else {
      var s' := Next(s, step);
      WritesAreLegal(s, step);
      StruckNext(s, step);
      OtherStepsKeepFindings(s, step);
      hide Next, Enabled;
      WriteKeepsResults(s.db.findings, s.db.scans, s'.db.scans, s.hist.struck, s'.hist.struck, WritesOf(step));
    }
  }

  lemma {:induction false} ResultsRun(s: State, steps: seq<Step>)
    requires Inv(s) && ResultsOk(s.db.findings, s.db.scans, s.hist.struck) && ValidRun(s, steps)
    ensures var t := Run(s, steps); ResultsOk(t.db.findings, t.db.scans, t.hist.struck)
    decreases |steps|
  {
    hide Inv, ResultsOk, Next, Enabled;
    if steps != [] {
      InvNext(s, steps[0]);
      ResultsNext(s, steps[0]);
      ResultsRun(Next(s, steps[0]), steps[1..]);
    }
  }

  lemma ResultsReachable(s: State)
    requires Reachable(s)
    ensures ResultsOk(s.db.findings, s.db.scans, s.hist.struck)
  {
    var steps :| ValidRun(Init, steps) && Run(Init, steps) == s;
    InvStart();
    hide Inv, Next, Enabled, ValidRun;
    ResultsRun(Init, steps);
  }

  /** In every reachable state a completed scan carries the score and the risk level of exactly its stored findings. */
  lemma CompletedScansAgree(s: State, sid: ScanId)
    requires Reachable(s) && sid in s.db.scans && s.db.scans[sid].status == Completed
    ensures var score := CalculateScore(FindingsOf(s.db.findings, sid));
            s.db.scans[sid].score == Some(score) && s.db.scans[sid].risk == CalculateRiskLevel(score)
  {
    ResultsReachable(s);
    ShapesReachable(s, sid);
  }

  /** Its level, read off the stored findings counted by type. */
  lemma CompletedScansCarryTheirRisk(s: State, sid: ScanId)
    requires Reachable(s) && sid in s.db.scans && s.db.scans[sid].status == Completed
    ensures var risk, points := s.db.scans[sid].risk, 1 + PointsByType(FindingsOf(s.db.findings, sid));
            && (risk == Low <==> points <= 30)
            && (risk == Medium <==> 31 <= points <= 70)
            && (risk == High <==> points > 70)
            && s.db.scans[sid].score == Some(if points < 100 then points else 100)
  {
    CompletedScansAgree(s, sid);
    RiskByPoints(FindingsOf(s.db.findings, sid));
    ScoreFormula(FindingsOf(s.db.findings, sid));
    hide Reachable;
  }

  /** A scan that is not completed has findings only if it was struck; in a run without strikes it has none. */
  lemma UnfinishedScansHaveNoFindings(steps: seq<Step>, sid: ScanId)
    requires ValidRun(Init, steps)
    requires var s := Run(Init, steps); sid in s.db.scans && s.db.scans[sid].status != Completed
    ensures var s := Run(Init, steps); FindingsOf(s.db.findings, sid) != [] ==> sid in s.hist.struck
    ensures StrikeFree(Init, steps) ==> FindingsOf(Run(Init, steps).db.findings, sid) == []
  {
    ResultsReachable(Run(Init, steps));
    StruckIffStrike(Init, steps);
  }
}
