/** The runtime budget observation (scripts/build_pr_test_runtime_budget_observation.py): which fallback was observed,
    and why. */
module RuntimeBudget {
  import opened Wrappers
  import opened Text
  import opened Ordering
  import opened Json

  /** The fields the builder reads of a selection coverage record, Null when absent. */
  datatype Coverage = Coverage(selectedTargets: Json, fallbackUsed: Json, fallbackTargets: Json, reasonCodes: Json)

  datatype Selection = Selection(targets: seq<string>, fallbackUsed: bool, fallbackTargets: seq<string>,
    reasonCodes: seq<string>)

  function SortedUnique(texts: seq<string>): seq<string> {
    SortedStrings(SetOf(texts))
  }

  /** `_resolve_selection` */
  function ResolveSelection(coverage: Option<Coverage>): Selection {
    match coverage
    case None => Selection([], false, [], [])
    case Some(c) =>
      Selection(SortedUnique(CoerceStrList(c.selectedTargets)), Truthy(c.fallbackUsed),
                SortedUnique(CoerceStrList(c.fallbackTargets)), SortedUnique(CoerceStrList(c.reasonCodes)))
  }

  const FULL_SUITE_TARGETS: set<string> := {"tests", "tests/", "."}

  const FULL_SUITE_REASONS: seq<string> :=
    ["fallback_full_suite", "fallback_full_test_suite", "select_all_tests", "no_governed_paths_matched"]

  predicate IsSuite(target: string) { Strip(target) in FULL_SUITE_TARGETS }

  predicate NamesSuite(code: string) { exists t :: t in FULL_SUITE_REASONS && Contains(code, t) }

  function SelectedSignals(targets: seq<string>): set<string> {
    set t | t in targets && IsSuite(t) :: "selected_target_full_suite:" + Strip(t)
  }

  function ReasonSignals(codes: seq<string>): set<string> {
    set c | c in codes && NamesSuite(c)
  }

  function TargetSignals(targets: seq<string>): set<string> {
    (set t | t in targets && IsSuite(t) :: "fallback_target_full_suite:" + Strip(t))
    + (set t | t in targets && !IsSuite(t) && NamesSuite(Strip(t)) :: "fallback_target_signal:" + Strip(t))
  }

  function Signals(s: Selection): set<string> {
    SelectedSignals(s.targets) + ReasonSignals(s.reasonCodes) + TargetSignals(s.fallbackTargets)
  }

  function PlainFallback(targets: seq<string>): set<string> {
    if targets == [] then {"selector_reported_fallback_used"} else set t | t in targets :: "fallback_target:" + t
  }

  function Reasons(s: Selection): set<string> {
    if s.fallbackUsed && Signals(s) == {} then PlainFallback(s.fallbackTargets) else Signals(s)
  }

  predicate FullSuite(s: Selection) { Signals(s) != {} }

  method CollectReasonSignals(codes: seq<string>) returns (found: set<string>)
    ensures found == ReasonSignals(codes)
  {
    found := {};
    for i := 0 to |codes|
      invariant found == ReasonSignals(codes[..i])
    {
      assert codes[..i + 1] == codes[..i] + [codes[i]];
      for k := 0 to |FULL_SUITE_REASONS|
        invariant found == ReasonSignals(codes[..i]) +
                    if exists t :: t in FULL_SUITE_REASONS[..k] && Contains(codes[i], t) then {codes[i]} else {}
      {
        assert FULL_SUITE_REASONS[..k + 1] == FULL_SUITE_REASONS[..k] + [FULL_SUITE_REASONS[k]];
        if Contains(codes[i], FULL_SUITE_REASONS[k]) { found := found + {codes[i]}; }
      }
      assert FULL_SUITE_REASONS[..|FULL_SUITE_REASONS|] == FULL_SUITE_REASONS;
    }
    assert codes[..|codes|] == codes;
  }

  /** The signal of one fallback target. */
  function SignalOf(target: string): set<string> {
    if Strip(target) in FULL_SUITE_TARGETS then {"fallback_target_full_suite:" + Strip(target)}
    else if NamesSuite(Strip(target)) then {"fallback_target_signal:" + Strip(target)}
    else {}
  }

  lemma TargetSignalsStep(targets: seq<string>, i: nat)
    requires i < |targets|
    ensures TargetSignals(targets[..i + 1]) == TargetSignals(targets[..i]) + SignalOf(targets[i])
    ensures targets[..|targets|] == targets
  {
    Prefix(targets, i);
  }

  method CollectTargetSignals(targets: seq<string>) returns (found: set<string>)
    ensures found == TargetSignals(targets)
  {
    found := {};
    for i := 0 to |targets|
      invariant found == TargetSignals(targets[..i])
    {
      TargetSignalsStep(targets, i);
      var token := Strip(targets[i]);
      if token in FULL_SUITE_TARGETS {
        found := found + {"fallback_target_full_suite:" + token};
      } else if NamesSuite(token) {
        found := found + {"fallback_target_signal:" + token};
      }
    }
    assert targets[..|targets|] == targets;
  }

  method CollectSelectedSignals(targets: seq<string>) returns (found: set<string>)
    ensures found == SelectedSignals(targets)
  {
    found := {};
    for i := 0 to |targets|
      invariant found == SelectedSignals(targets[..i])
    {
      TargetSignalsStep(targets, i);
      var token := Strip(targets[i]);
      if token in FULL_SUITE_TARGETS { found := found + {"selected_target_full_suite:" + token}; }
    }
    assert targets[..|targets|] == targets;
  }

  method CollectPlainFallback(targets: seq<string>) returns (found: set<string>)
    ensures found == PlainFallback(targets)
  {
    found := {};
    for i := 0 to |targets|
      invariant found == set t | t in targets[..i] :: "fallback_target:" + t
    {
      assert targets[..i + 1] == targets[..i] + [targets[i]];
      found := found + {"fallback_target:" + targets[i]};
    }
    assert targets[..|targets|] == targets;
    if targets == [] { found := found + {"selector_reported_fallback_used"}; }
  }

  /** `_detect_full_suite` */
  method DetectFullSuite(s: Selection) returns (detected: bool, reasons: seq<string>)
    ensures detected == FullSuite(s)
    ensures reasons == SortedStrings(Reasons(s))
  {
    var selected := CollectSelectedSignals(s.targets);
    var named := CollectReasonSignals(s.reasonCodes);
    var aimed := CollectTargetSignals(s.fallbackTargets);
    var codes := selected + named + aimed;
    detected := codes != {};
    if s.fallbackUsed && codes == {} { codes := CollectPlainFallback(s.fallbackTargets); }
    reasons := SortedStrings(codes);
  }

  /** Full suite is detected exactly when a selected or fallback target is the whole suite, or a selection code or
      fallback target names it. */
  lemma FullSuiteIff(s: Selection)
    ensures FullSuite(s) <==>
            || (exists t :: t in s.targets && IsSuite(t))
            || (exists c :: c in s.reasonCodes && NamesSuite(c))
            || (exists t :: t in s.fallbackTargets && (IsSuite(t) || NamesSuite(Strip(t))))
  {
    if t :| t in s.targets && IsSuite(t) { assert "selected_target_full_suite:" + Strip(t) in Signals(s); }
    if c :| c in s.reasonCodes && NamesSuite(c) { assert c in Signals(s); }
    if t :| t in s.fallbackTargets && (IsSuite(t) || NamesSuite(Strip(t))) {
      assert (if IsSuite(t) then "fallback_target_full_suite:" + Strip(t) else "fallback_target_signal:" + Strip(t))
          in Signals(s);
    }
  }

  /** No fallback is silent: an observed fallback or full suite always has a reason code. */
  lemma FallbackHasReason(s: Selection)
    requires s.fallbackUsed || FullSuite(s)
    ensures Reasons(s) != {} && SortedStrings(Reasons(s)) != []
  {
    if s.fallbackTargets != [] { assert "fallback_target:" + s.fallbackTargets[0] in PlainFallback(s.fallbackTargets); }
    SortedStringsLists(Reasons(s));
  }

  // ----------------------------------------------------------------------- the scope

  datatype Scope = FullSuiteScope | BroadPytest | ShardFallback | UnknownScope | NoFallback

  predicate IsBroad(target: string) {
    Strip(target) in {"select_all_tests"} + FULL_SUITE_TARGETS || NamesSuite(Strip(target))
  }

  /** `_classify_fallback_scope`: the scope, and the reason codes it adds. */
  function ClassifyScope(
      fullSuite: bool, fallbackUsed: bool, coveragePresent: bool, summaryPresent: bool, fallbackTargets: seq<string>)
    : (Scope, set<string>)
  {
    if fullSuite then (FullSuiteScope, {})
    else if fallbackUsed
        then (if exists t :: t in fallbackTargets && IsBroad(t) then BroadPytest else ShardFallback, {})
    else if !coveragePresent && !summaryPresent then (UnknownScope, {"fallback_scope_unknown_inputs_missing"})
    else if !coveragePresent then (UnknownScope, {"fallback_scope_unknown_selection_coverage_missing"})
    else (NoFallback, {})
  }

  /** What the later stages read of the artifact. */
  datatype Budget = Budget(fullSuite: bool, fallbackUsed: bool, reasonCodes: seq<string>, scope: Scope,
    justificationCodes: seq<string>)

  /** The fallback part of `build_runtime_budget_observation`. */
  function BudgetOf(coverage: Option<Coverage>, summaryPresent: bool): Budget {
    var s := ResolveSelection(coverage);
    var (scope, extra) := ClassifyScope(FullSuite(s), s.fallbackUsed, coverage.Some?, summaryPresent,
        s.fallbackTargets);
    Budget(FullSuite(s), s.fallbackUsed, SortedStrings(Reasons(s)), scope, SortedStrings(Reasons(s) + extra))
  }

  method BuildBudget(coverage: Option<Coverage>, summaryPresent: bool) returns (b: Budget)
    ensures b == BudgetOf(coverage, summaryPresent)
  {
    var s := ResolveSelection(coverage);
    var fullSuite, reasons := DetectFullSuite(s);
    var (scope, extra) := ClassifyScope(fullSuite, s.fallbackUsed, coverage.Some?, summaryPresent, s.fallbackTargets);
    SortedStringsLists(Reasons(s));
    assert SetOf(reasons) + extra == Reasons(s) + extra;
    b := Budget(fullSuite, s.fallbackUsed, reasons, scope, SortedStrings(SetOf(reasons) + extra));
  }

  lemma SelectAllNamesSuite(t: string)
    requires Strip(t) == "select_all_tests"
    ensures NamesSuite(Strip(t))
  {
    var token := FULL_SUITE_REASONS[2];
    assert Strip(t)[0..] == Strip(t) == token;
    assert StartsWith(Strip(t)[0..], token);
    assert Contains(Strip(t), token) && token in FULL_SUITE_REASONS;
  }

  /** The scope follows what was observed, and the documented scope `broad_pytest` is never emitted: every
      broad fallback target already counts as a full-suite signal. */
  lemma ScopeFollowsObservation(coverage: Option<Coverage>, summaryPresent: bool)
    ensures var b := BudgetOf(coverage, summaryPresent);
            && b.scope != BroadPytest
            && (b.scope == FullSuiteScope <==> b.fullSuite)
            && (b.scope == ShardFallback <==> b.fallbackUsed && !b.fullSuite)
            && (b.scope == UnknownScope <==> coverage.None?)
            && (b.scope == NoFallback <==> coverage.Some? && !b.fallbackUsed && !b.fullSuite)
  {
    var s := ResolveSelection(coverage);
    FullSuiteIff(s);
    forall t | t in s.fallbackTargets && IsBroad(t) ensures IsSuite(t) || NamesSuite(Strip(t)) {
      if Strip(t) == "select_all_tests" { SelectAllNamesSuite(t); }
    }
  }
}
