/** Scoring of a list of findings (app/domain/scoring.py). */
module Scoring {

  const BASE_SCORE := 1
  const MAX_SCORE := 100

  /** `Unrecognised` stands for anything missing from the delta table. */
  datatype FindingType =
    | ExecutableBinary
    | InstallHookAdded
    | CommandExecutionPattern
    | ObfuscatedCode
    | SizeIncreaseHigh
    | SizeIncreaseMedium
    | InstallHookPresent
    | InstallHookRemoved
    | Unrecognised(tag: string)

  datatype Severity = SevLow | SevMedium | SevHigh | SevCritical

  datatype Finding = Finding(findingType: FindingType, severity: Severity, category: string, evidence: string)

  datatype RiskLevel = Low | Medium | High | Unknown

  datatype ScoreContribution = ScoreContribution(findingType: FindingType, points: nat)

  function Delta(t: FindingType): nat {
    match t
    case ExecutableBinary => 25
    case InstallHookAdded => 20
    case CommandExecutionPattern => 15
    case ObfuscatedCode => 15
    case SizeIncreaseHigh => 10
    case SizeIncreaseMedium => 5
    case InstallHookPresent => 5
    case InstallHookRemoved => 0
    case Unrecognised(_) => 0
  }

  function ClampScore(score: int): int {
    if score < BASE_SCORE then BASE_SCORE
    else if score > MAX_SCORE then MAX_SCORE
    else score
  }

  function Contributions(findings: seq<Finding>): seq<ScoreContribution> {
    seq(|findings|, i requires 0 <= i < |findings| =>
      ScoreContribution(findings[i].findingType, Delta(findings[i].findingType)))
  }

  function SumPoints(contributions: seq<ScoreContribution>): nat {
    if contributions == [] then 0 else contributions[0].points + SumPoints(contributions[1..])
  }

  function CalculateScore(findings: seq<Finding>): int {
    ClampScore(BASE_SCORE + SumPoints(Contributions(findings)))
  }

  function CalculateRiskLevel(score: int): RiskLevel {
    var normalized := ClampScore(score);
    if normalized <= 30 then Low else if normalized <= 70 then Medium else High
  }

  /** The loop of `explain_score`: one contribution a finding, in order. */
  method ExplainScore(findings: seq<Finding>) returns (contributions: seq<ScoreContribution>)
    ensures contributions == Contributions(findings)
  {
    contributions := [];
    for i := 0 to |findings|
      invariant contributions == Contributions(findings)[..i]
    {
      var t := findings[i].findingType;
      contributions := contributions + [ScoreContribution(t, Delta(t))];
    }
  }

  /** How many findings have the given type: the reference the score is stated against. */
  function CountOf(findings: seq<Finding>, t: FindingType): nat {
    if findings == [] then 0 else (if findings[0].findingType == t then 1 else 0) + CountOf(findings[1..], t)
  }

  function PointsByType(findings: seq<Finding>): nat {
    25 * CountOf(findings, ExecutableBinary) + 20 * CountOf(findings, InstallHookAdded)
    + 15 * CountOf(findings, CommandExecutionPattern) + 15 * CountOf(findings, ObfuscatedCode)
    + 10 * CountOf(findings, SizeIncreaseHigh) + 5 * CountOf(findings, SizeIncreaseMedium)
    + 5 * CountOf(findings, InstallHookPresent)
  }

  lemma ContributionsTail(findings: seq<Finding>)
    requires findings != []
    ensures Contributions(findings)[1..] == Contributions(findings[1..])
  {
  }

  lemma {:induction false} PointsAreCountedByType(findings: seq<Finding>)
    ensures SumPoints(Contributions(findings)) == PointsByType(findings)
  {
    if findings == [] {
    } else {
      ContributionsTail(findings);
      PointsAreCountedByType(findings[1..]);
    }
  }

  /** The score is the documented table summed by type, started at 1 and capped at 100. */
  lemma ScoreFormula(findings: seq<Finding>)
    ensures CalculateScore(findings)
            == if 1 + PointsByType(findings) < 100 then 1 + PointsByType(findings) else 100
    ensures 1 <= CalculateScore(findings) <= 100
  {
    PointsAreCountedByType(findings);
  }

  /** The level is decided by the points counted by type: up to 30 with the starting one, up to 70, and beyond. */
  lemma RiskByPoints(findings: seq<Finding>)
    ensures var level, points := CalculateRiskLevel(CalculateScore(findings)), 1 + PointsByType(findings);
            && (level == Low <==> points <= 30) && (level == Medium <==> 31 <= points <= 70)
            && (level == High <==> points > 70) && level != Unknown
  {
    PointsAreCountedByType(findings);
  }

  /** The thresholds on any number, clamped or not. */
  lemma RiskThresholds(score: int)
    ensures CalculateRiskLevel(score) == if score <= 30 then Low else if score <= 70 then Medium else High
  {
  }

  lemma {:induction false} PointsAppend(a: seq<Finding>, b: seq<Finding>)
    ensures SumPoints(Contributions(a + b)) == SumPoints(Contributions(a)) + SumPoints(Contributions(b))
  {
    if a == [] {
      assert a + b == b;
    } else {
      assert (a + b)[1..] == a[1..] + b;
      ContributionsTail(a);
      ContributionsTail(a + b);
      PointsAppend(a[1..], b);
    }
  }

  lemma PointsMove(a: seq<Finding>, f: Finding, b: seq<Finding>)
    ensures SumPoints(Contributions(a + [f] + b)) == Delta(f.findingType) + SumPoints(Contributions(a + b))
  {
    PointsAppend(a + [f], b);
    PointsAppend(a, [f]);
    PointsAppend(a, b);
    assert Contributions([f])[1..] == [];
  }

  lemma {:induction false} PointsPermuted(a: seq<Finding>, b: seq<Finding>)
    requires multiset(a) == multiset(b)
    ensures SumPoints(Contributions(a)) == SumPoints(Contributions(b))
    decreases |a|
  {
    if a == [] {
      assert |multiset(b)| == 0;
    } else {
      assert a[0] in multiset(b);
      var i :| 0 <= i < |b| && b[i] == a[0];
      var rest := b[..i] + b[i + 1..];
      assert b == b[..i] + [b[i]] + b[i + 1..];
      assert a == [a[0]] + a[1..];
      assert multiset(a[1..]) == multiset(a) - multiset{a[0]};
      assert multiset(rest) == multiset(b) - multiset{b[i]};
      PointsPermuted(a[1..], rest);
      PointsMove(b[..i], b[i], b[i + 1..]);
      ContributionsTail(a);
    }
  }

  /** The order in which the detectors report is irrelevant to the score. */
  lemma ScoreIgnoresOrder(a: seq<Finding>, b: seq<Finding>)
    requires multiset(a) == multiset(b)
    ensures CalculateScore(a) == CalculateScore(b)
  {
    PointsPermuted(a, b);
  }

  function RiskRank(r: RiskLevel): int {
    match r case Unknown => 0 case Low => 1 case Medium => 2 case High => 3
  }

  /** Reporting more findings never lowers the score or the risk level, wherever they are inserted. */
  lemma MoreFindingsNeverLowerTheRisk(a: seq<Finding>, more: seq<Finding>, b: seq<Finding>)
    ensures CalculateScore(a + b) <= CalculateScore(a + more + b)
    ensures RiskRank(CalculateRiskLevel(CalculateScore(a + b)))
            <= RiskRank(CalculateRiskLevel(CalculateScore(a + more + b)))
  {
    PointsAppend(a + more, b);
    PointsAppend(a, more);
    PointsAppend(a, b);
  }
}
