/** Install-hook detection (app/infrastructure/scanner/install_hook_detector.py). */
module InstallHooks {
  import opened Wrappers
  import opened Scoring

  const REQUIRED_HOOKS: seq<string> := ["preinstall", "install", "postinstall"]
  const OPTIONAL_HOOKS: seq<string> := ["prepare", "prepublish", "prepublishOnly"]
  const ALL_HOOKS: seq<string> := REQUIRED_HOOKS + OPTIONAL_HOOKS

  type Scripts = map<string, string>

  function HookFinding(hook: string, latest: Scripts, previous: Option<Scripts>): Option<Finding> {
    var hasPrevious := previous.Some? && hook in previous.value;
    var required := hook in REQUIRED_HOOKS;
    if hook in latest && previous.Some? && !hasPrevious then
      Some(Finding(InstallHookAdded, if required then SevHigh else SevMedium, "scripts", hook))
    else if hasPrevious && hook !in latest then
      Some(Finding(InstallHookRemoved, SevLow, "scripts", hook))
    else if hook in latest then
      Some(Finding(InstallHookPresent, if required then SevMedium else SevLow, "scripts", hook))
    else None
  }

  /** The findings of one hook, of which there is at most one. */
  function HookReport(hook: string, latest: Scripts, previous: Option<Scripts>): seq<Finding> {
    var f := HookFinding(hook, latest, previous);
    if f.Some? then [f.value] else []
  }

  function HookFindings(hooks: seq<string>, latest: Scripts, previous: Option<Scripts>): seq<Finding> {
    if hooks == [] then [] else HookReport(hooks[0], latest, previous) + HookFindings(hooks[1..], latest, previous)
  }

  lemma {:induction false} HookFindingsSnoc(hooks: seq<string>, h: string, latest: Scripts, previous: Option<Scripts>)
    ensures HookFindings(hooks + [h], latest, previous)
            == HookFindings(hooks, latest, previous) + HookFindings([h], latest, previous)
  {
    hide HookFinding;
    if hooks == [] {
      assert hooks + [h] == [h];
    } else {
      assert (hooks + [h])[1..] == hooks[1..] + [h];
      HookFindingsSnoc(hooks[1..], h, latest, previous);
    }
  }

  method DetectInstallHooks(latest: Scripts, previousScripts: Option<Scripts>) returns (findings: seq<Finding>)
    ensures findings == HookFindings(ALL_HOOKS, latest, previousScripts)
  {
    findings := [];
    var previous: Scripts := if previousScripts.Some? then previousScripts.value else map[];
    var hasPreviousVersion := previousScripts.Some?;
    for i := 0 to |ALL_HOOKS|
      invariant findings == HookFindings(ALL_HOOKS[..i], latest, previousScripts)
    {
      var hook := ALL_HOOKS[i];
      HookFindingsSnoc(ALL_HOOKS[..i], hook, latest, previousScripts);
      assert ALL_HOOKS[..i + 1] == ALL_HOOKS[..i] + [hook];
      var hasLatest := hook in latest;
      var hasPrevious := hook in previous;
      var required := hook in REQUIRED_HOOKS;
      if hasLatest && hasPreviousVersion && !hasPrevious {
        findings := findings + [Finding(InstallHookAdded, if required then SevHigh else SevMedium, "scripts", hook)];
        continue;
      }
      if hasPrevious && !hasLatest {
        findings := findings + [Finding(InstallHookRemoved, SevLow, "scripts", hook)];
        continue;
      }
      if hasLatest {
        findings := findings + [Finding(InstallHookPresent, if required then SevMedium else SevLow, "scripts", hook)];
      }
    }
    assert ALL_HOOKS[..|ALL_HOOKS|] == ALL_HOOKS;
  }

  /** Hooks of the list whose presence in the two versions is as given. */
  function Hooks(hooks: seq<string>, latest: Scripts, previous: Scripts, inLatest: bool, inPrevious: bool): nat {
    if hooks == [] then 0
    else (if (hooks[0] in latest) == inLatest && (hooks[0] in previous) == inPrevious then 1 else 0)
         + Hooks(hooks[1..], latest, previous, inLatest, inPrevious)
  }

  lemma PointsOfOneHook(hook: string, latest: Scripts, previous: Scripts)
    ensures SumPoints(Contributions(HookReport(hook, latest, Some(previous))))
            == if hook !in latest then 0 else if hook in previous then 5 else 20
  {
    var report := HookReport(hook, latest, Some(previous));
    if report != [] {
      assert Contributions(report)[1..] == [];
    }
  }

  /** Against a previous version: 20 points a hook added, 5 a hook kept, nothing for a hook removed or absent. */
  lemma {:induction false} HookPoints(hooks: seq<string>, latest: Scripts, previous: Scripts)
    ensures SumPoints(Contributions(HookFindings(hooks, latest, Some(previous))))
            == 20 * Hooks(hooks, latest, previous, true, false) + 5 * Hooks(hooks, latest, previous, true, true)
  {
    if hooks == [] {
    } else {
      assert HookFindings(hooks, latest, Some(previous))
             == HookReport(hooks[0], latest, Some(previous)) + HookFindings(hooks[1..], latest, Some(previous));
      hide HookFinding, HookReport, Contributions, SumPoints;
      HookPoints(hooks[1..], latest, previous);
      PointsOfOneHook(hooks[0], latest, previous);
      PointsAppend(HookReport(hooks[0], latest, Some(previous)), HookFindings(hooks[1..], latest, Some(previous)));
    }
  }

  ghost predicate AtMostOncePerHook(findings: seq<Finding>, hooks: seq<string>) {
    && (forall k :: 0 <= k < |findings| ==> findings[k].evidence in hooks)
    && (forall k, l :: 0 <= k < l < |findings| ==> findings[k].evidence != findings[l].evidence)
  }

  lemma FindingNamesHook(hook: string, latest: Scripts, previous: Option<Scripts>)
    ensures HookFinding(hook, latest, previous).Some? ==> HookFinding(hook, latest, previous).value.evidence == hook
  {
  }

  /** Findings are named after their hook, so a hook is reported at most once. */
  lemma {:induction false} OneFindingPerHook(hooks: seq<string>, latest: Scripts, previous: Option<Scripts>)
    requires forall i, j :: 0 <= i < j < |hooks| ==> hooks[i] != hooks[j]
    ensures AtMostOncePerHook(HookFindings(hooks, latest, previous), hooks)
  {
    if hooks == [] {
    } else {
      FindingNamesHook(hooks[0], latest, previous);
      hide HookFinding;
      var tail := hooks[1..];
      assert forall k :: 0 <= k < |tail| ==> tail[k] == hooks[k + 1];
      OneFindingPerHook(tail, latest, previous);
      var rest := HookFindings(tail, latest, previous);
      forall k | 0 <= k < |rest|
        ensures rest[k].evidence in hooks && rest[k].evidence != hooks[0]
      {
        assert rest[k].evidence in tail;
      }
      assert HookFindings(hooks, latest, previous) == HookReport(hooks[0], latest, previous) + rest;
    }
  }

  /** Without a previous version: 5 points a hook present, and nothing is reported as added or removed. */
  lemma {:induction false} HookPointsAlone(hooks: seq<string>, latest: Scripts)
    ensures SumPoints(Contributions(HookFindings(hooks, latest, None)))
            == 5 * Hooks(hooks, latest, map[], true, false)
  {
    if hooks == [] {
    } else {
      assert HookFindings(hooks, latest, None)
             == HookReport(hooks[0], latest, None) + HookFindings(hooks[1..], latest, None);
      var report := HookReport(hooks[0], latest, None);
      assert report != [] ==> Contributions(report)[1..] == [];
      assert SumPoints(Contributions(report)) == if hooks[0] in latest then 5 else 0;
      hide HookFinding, HookReport, Contributions, SumPoints;
      HookPointsAlone(hooks[1..], latest);
      PointsAppend(report, HookFindings(hooks[1..], latest, None));
    }
  }

  /** The finding a hook calls for, by its presence in the latest version and in the previous one, if there is one. */
  predicate CalledFor(f: Finding, latest: Scripts, previous: Option<Scripts>) {
    var required := f.evidence in {"preinstall", "install", "postinstall"};
    var before := previous.Some? && f.evidence in previous.value;
    && f.category == "scripts"
    && match f.findingType
       case InstallHookAdded =>
         f.evidence in latest && previous.Some? && !before && f.severity == if required then SevHigh else SevMedium
       case InstallHookRemoved => f.evidence !in latest && before && f.severity == SevLow
       case InstallHookPresent =>
         f.evidence in latest && (previous == None || before) && f.severity == if required then SevMedium else SevLow
       case _ => false
  }

  lemma ReportIsCalledFor(hook: string, latest: Scripts, previous: Option<Scripts>, f: Finding)
    ensures f in HookReport(hook, latest, previous) <==> f.evidence == hook && CalledFor(f, latest, previous)
  {
    assert REQUIRED_HOOKS == ["preinstall", "install", "postinstall"];
    assert hook in REQUIRED_HOOKS <==> hook in {"preinstall", "install", "postinstall"};
  }

  lemma {:induction false} FindingsAreCalledFor(hooks: seq<string>, latest: Scripts, previous: Option<Scripts>,
                                                f: Finding)
    ensures f in HookFindings(hooks, latest, previous) <==> f.evidence in hooks && CalledFor(f, latest, previous)
  {
    hide CalledFor, HookReport;
    if hooks != [] {
      ReportIsCalledFor(hooks[0], latest, previous, f);
      FindingsAreCalledFor(hooks[1..], latest, previous, f);
    }
  }

  /** The findings are exactly those called for by the six hooks. */
  lemma HookFindingsExactly(latest: Scripts, previous: Option<Scripts>, f: Finding)
    ensures f in HookFindings(ALL_HOOKS, latest, previous) <==>
              && f.evidence in {"preinstall", "install", "postinstall", "prepare", "prepublish", "prepublishOnly"}
              && CalledFor(f, latest, previous)
  {
    FindingsAreCalledFor(ALL_HOOKS, latest, previous, f);
    hide CalledFor, HookFindings;
    assert ALL_HOOKS == ["preinstall", "install", "postinstall", "prepare", "prepublish", "prepublishOnly"];
  }
}
