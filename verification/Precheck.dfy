/** The agent PR precheck (scripts/run_agent_pr_precheck.py): the readiness composition, and the rollup of check
    results. */
module Precheck {
  import opened Wrappers
  import opened Ordering
  import opened Json
  import RuntimeBudget
  import opened ShardReadiness

  // --------------------------------------------------- budget feeding shard readiness

  /** The built budget artifact as the readiness builder reads it. */
  function AsInput(b: RuntimeBudget.Budget): BudgetInput {
    BudgetInput(true, Bool(b.fallbackUsed), Bool(b.fullSuite), StrArr(b.reasonCodes),
      Some(StrArr(b.justificationCodes)))
  }

  const BUDGET_REF := "outputs/pr_test_runtime_budget/pr_test_runtime_budget_observation.json"

  /** Lines 954-983: the readiness artifact the precheck builds from a summary and a coverage record. */
  function ComposedReadiness(
      stem: string -> string, summary: Option<Summary>, coverage: Option<RuntimeBudget.Coverage>): Readiness {
    ReadinessOf(stem, summary, Some(AsInput(RuntimeBudget.BudgetOf(coverage, summary.Some?))), Some(BUDGET_REF))
  }

  predicate FallbackObserved(coverage: Option<RuntimeBudget.Coverage>) {
    var s := RuntimeBudget.ResolveSelection(coverage);
    s.fallbackUsed || RuntimeBudget.FullSuite(s)
  }

  /** What the readiness builder reads back from the artifact is what the budget builder observed, and a fallback brings
      a code. */
  lemma SignalsCarryOver(coverage: Option<RuntimeBudget.Coverage>, summaryPresent: bool)
    ensures var g := ResolveSignals(Some(AsInput(RuntimeBudget.BudgetOf(coverage, summaryPresent))));
            && (g.fallbackUsed || g.fullSuite <==> FallbackObserved(coverage))
            && g.justified && g.reasons == {}
            && (FallbackObserved(coverage) ==> g.codes != {})
  {
    var s, b := RuntimeBudget.ResolveSelection(coverage), RuntimeBudget.BudgetOf(coverage, summaryPresent);
    CoerceStrArr(b.reasonCodes);
    if FallbackObserved(coverage) {
      RuntimeBudget.FallbackHasReason(s);
      assert b.reasonCodes[0] in SetOf(b.reasonCodes);
    }
  }

  /** The verdict table of the readiness classifier when the budget artifact is present with its justification and a
      ref. */
  lemma ClassifyTable(
      g: Signals, ref: Option<string>, required: set<string>, missing: set<string>, failed: set<string>,
      summaryPresent: bool)
    requires HasRef(ref) && g.justified && (g.fallbackUsed || g.fullSuite ==> g.codes != {})
    ensures var (status, extra) := Classify(g, ref, required, missing, failed, true, summaryPresent);
            && (status == FallbackJustified <==> g.fallbackUsed || g.fullSuite)
            && (status == MissingInputs <==> !summaryPresent && !(g.fallbackUsed || g.fullSuite))
            && (status == ShardFirst <==>
               summaryPresent && !(g.fallbackUsed || g.fullSuite) && missing == {} && failed == {} && required != {})
            && status != UnknownStatus
            && FallbackWithoutUpstreamCodes !in extra && FullSuiteWithoutUpstreamCodes !in extra
            && Synthesized(g) == {}
  {
  }

  lemma ShardReasonsAreAboutShards(stem: string -> string, s: Summary, shards: seq<string>)
    ensures FallbackWithoutUpstreamCodes !in ShardReasons(stem, s, shards)
    ensures FullSuiteWithoutUpstreamCodes !in ShardReasons(stem, s, shards)
  {
  }

  /** What the readiness artifact says, in terms of the summary and the coverage record. */
  predicate Composed(summary: Option<Summary>, coverage: Option<RuntimeBudget.Coverage>, r: Readiness) {
    && (r.status == FallbackJustified <==> FallbackObserved(coverage))
    && (r.status == MissingInputs <==> summary.None? && !FallbackObserved(coverage))
    && (r.status == ShardFirst <==>
          && summary.Some? && !FallbackObserved(coverage)
          && r.missing == [] && r.failed == [] && r.required != [])
    && r.status != UnknownStatus
    && FallbackWithoutUpstreamCodes !in r.reasons && FullSuiteWithoutUpstreamCodes !in r.reasons
  }

  /** The composition, on every summary and coverage record: a fallback or full suite is always justified, nothing is
      ever unknown, no code is synthesized, and shard_first needs a summary without missing or failed refs and with a
      required one. */
  lemma ComposedStatus(stem: string -> string, summary: Option<Summary>, coverage: Option<RuntimeBudget.Coverage>)
    ensures Composed(summary, coverage, ComposedReadiness(stem, summary, coverage))
  {
    match summary
    case None => ComposedWithout(stem, coverage);
    case Some(s) => ComposedWith(stem, s, coverage);
  }

  lemma ComposedWithout(stem: string -> string, coverage: Option<RuntimeBudget.Coverage>)
    ensures Composed(None, coverage, ComposedReadiness(stem, None, coverage))
  {
    SignalsCarryOver(coverage, false);
    assert |BUDGET_REF| > 0;
    ListingEmptyIff({});
    var g := ResolveSignals(Some(AsInput(RuntimeBudget.BudgetOf(coverage, false))));
    ClassifyTable(g, Some(BUDGET_REF), {}, {}, {}, false);
  }

  lemma ComposedWith(stem: string -> string, s: Summary, coverage: Option<RuntimeBudget.Coverage>)
    ensures Composed(Some(s), coverage, ComposedReadiness(stem, Some(s), coverage))
  {
    SignalsCarryOver(coverage, true);
    assert |BUDGET_REF| > 0;
    var g := ResolveSignals(Some(AsInput(RuntimeBudget.BudgetOf(coverage, true))));
    var shards := RequiredShards(s);
    var required, missing, failed :=
      RequiredRefs(stem, s, shards), MissingShards(stem, s, shards), FailedRefs(stem, s, shards);
    ClassifyTable(g, Some(BUDGET_REF), required, missing, failed, true);
    ShardReasonsAreAboutShards(stem, s, shards);
    ListingEmptyIff(required);
    ListingEmptyIff(missing);
    ListingEmptyIff(failed);
  }

  lemma ListingEmptyIff(s: set<string>)
    ensures SortedStrings(s) == [] <==> s == {}
  {
    SortedStringsLists(s);
  }

  // ------------------------------------------------------------------ check results

  datatype Phase = AEX | TPA | PQX | EVL | CDE | SEL | OtherPhase(text: string)

  const PHASES: seq<Phase> := [AEX, TPA, PQX, EVL, CDE, SEL]

  datatype CheckStatus =
    | CheckPass | CheckWarn | CheckBlock | CheckMissing | CheckUnknown | CheckSkipped
    | OtherStatus(text: string)

  datatype CheckResult = CheckResult(name: string, phase: Phase, status: CheckStatus, reasonCodes: seq<string>)

  predicate Blocking(s: CheckStatus) { s.CheckBlock? || s.CheckMissing? || s.CheckUnknown? }

  /** The readiness check, lines 998-1034; `render` lists the status and the reasons of the artifact. */
  function ReadinessCheck(r: Readiness, render: Readiness -> seq<string>): CheckResult {
    if r.status.ShardFirst? || r.status.FallbackJustified?
    then CheckResult("evl_pr_test_shard_first_readiness", EVL, CheckPass, [])
    else CheckResult("evl_pr_test_shard_first_readiness", EVL, CheckBlock, render(r))
  }

  // ---------------------------------------------------------------------- the rollup

  function OfPhase(phase: Phase, checks: seq<CheckResult>): seq<CheckResult> {
    if checks == [] then []
    else
      var last := checks[|checks| - 1];
      OfPhase(phase, checks[..|checks| - 1]) + (if last.phase == phase then [last] else [])
  }

  function CountBlocking(checks: seq<CheckResult>): nat {
    if checks == [] then 0
    else CountBlocking(checks[..|checks| - 1]) + (if Blocking(checks[|checks| - 1].status) then 1 else 0)
  }

  datatype PhaseStatus = PhaseBlock | PhaseWarn | PhasePass | PhaseSkipped

  function StatusOf(phaseChecks: seq<CheckResult>): PhaseStatus {
    if exists c :: c in phaseChecks && Blocking(c.status) then PhaseBlock
    else if exists c :: c in phaseChecks && c.status.CheckWarn? then PhaseWarn
    else if phaseChecks != [] && forall c :: c in phaseChecks ==> c.status.CheckSkipped? then PhaseSkipped
    else if exists c :: c in phaseChecks && c.status.CheckPass? then PhasePass
    else PhaseSkipped
  }

  datatype PhaseSummary = PhaseSummary(status: PhaseStatus, checkCount: nat, failCount: nat, reasonCodes: seq<string>)

  /** The codes of a list, in order, the empty ones dropped when asked to. */
  function Kept(codes: seq<string>, dropEmpty: bool): seq<string> {
    if codes == [] then []
    else
      var last := codes[|codes| - 1];
      Kept(codes[..|codes| - 1], dropEmpty) + (if dropEmpty && last == "" then [] else [last])
  }

  /** The reason codes of the checks, one check after the other. */
  function CodesOf(checks: seq<CheckResult>, dropEmpty: bool): seq<string> {
    if checks == [] then []
    else CodesOf(checks[..|checks| - 1], dropEmpty) + Kept(checks[|checks| - 1].reasonCodes, dropEmpty)
  }

  lemma OneMoreCode<T(!new)>(codes: seq<T>, code: T)
    ensures FirstOccurrences(codes + [code])
         == if code in codes then FirstOccurrences(codes) else FirstOccurrences(codes) + [code]
  {
    assert (codes + [code])[..|codes|] == codes;
  }

  lemma KeptStep(sofar: seq<string>, codes: seq<string>, i: nat, dropEmpty: bool)
    requires i < |codes|
    ensures sofar + Kept(codes[..i + 1], dropEmpty)
         == if dropEmpty && codes[i] == "" then sofar + Kept(codes[..i], dropEmpty)
            else (sofar + Kept(codes[..i], dropEmpty)) + [codes[i]]
    ensures codes[..|codes|] == codes
  {
    assert codes[..i + 1][..i] == codes[..i];
  }

  /** The codes of one more check join the list, each once. */
  method AppendCodes(codes: seq<string>, more: seq<string>, dropEmpty: bool, ghost sofar: seq<string>)
    returns (r: seq<string>)
    requires codes == FirstOccurrences(sofar)
    ensures r == FirstOccurrences(sofar + Kept(more, dropEmpty))
  {
    r := codes;
    assert sofar + [] == sofar;
    for i := 0 to |more|
      invariant r == FirstOccurrences(sofar + Kept(more[..i], dropEmpty))
    {
      KeptStep(sofar, more, i, dropEmpty);
      OneMoreCode(sofar + Kept(more[..i], dropEmpty), more[i]);
      if !(dropEmpty && more[i] == "") && more[i] !in r { r := r + [more[i]]; }
    }
    assert more[..|more|] == more;
  }

  method CollectCodes(checks: seq<CheckResult>, dropEmpty: bool) returns (codes: seq<string>)
    ensures codes == FirstOccurrences(CodesOf(checks, dropEmpty))
  {
    codes := [];
    for i := 0 to |checks|
      invariant codes == FirstOccurrences(CodesOf(checks[..i], dropEmpty))
    {
      assert checks[..i + 1][..i] == checks[..i];
      codes := AppendCodes(codes, checks[i].reasonCodes, dropEmpty, CodesOf(checks[..i], dropEmpty));
    }
    assert checks[..|checks|] == checks;
  }

  method ChecksOf(phase: Phase, checks: seq<CheckResult>) returns (r: seq<CheckResult>)
    ensures r == OfPhase(phase, checks)
  {
    r := [];
    for i := 0 to |checks|
      invariant r == OfPhase(phase, checks[..i])
    {
      assert checks[..i + 1][..i] == checks[..i];
      if checks[i].phase == phase { r := r + [checks[i]]; }
    }
    assert checks[..|checks|] == checks;
  }

  /** `_summarize_phase`: the codes are the non-empty ones of the phase, each where it first occurs. */
  method SummarizePhase(phase: Phase, checks: seq<CheckResult>) returns (s: PhaseSummary)
    ensures s.status == StatusOf(OfPhase(phase, checks))
    ensures s.checkCount == |OfPhase(phase, checks)| && s.failCount == CountBlocking(OfPhase(phase, checks))
    ensures s.reasonCodes == FirstOccurrences(CodesOf(OfPhase(phase, checks), true))
  {
    var phaseChecks := ChecksOf(phase, checks);
    var failCount: nat := 0;
    for i := 0 to |phaseChecks|
      invariant failCount == CountBlocking(phaseChecks[..i])
    {
      assert phaseChecks[..i + 1][..i] == phaseChecks[..i];
      if Blocking(phaseChecks[i].status) { failCount := failCount + 1; }
    }
    assert phaseChecks[..|phaseChecks|] == phaseChecks;
    var codes := CollectCodes(phaseChecks, true);
    s := PhaseSummary(StatusOf(phaseChecks), |phaseChecks|, failCount, codes);
  }

  datatype Overall = OverallBlock | OverallWarn | OverallPass

  const REPO_MUTATING_UNKNOWN := "repo_mutating_unknown"

  /** The checks whose status passes a test, in order. */
  function Having(checks: seq<CheckResult>, test: CheckStatus -> bool): seq<CheckResult> {
    if checks == [] then []
    else
      var last := checks[|checks| - 1];
      Having(checks[..|checks| - 1], test) + (if test(last.status) then [last] else [])
  }

  predicate Warns(s: CheckStatus) { s.CheckWarn? }

  lemma {:induction false} HavingMembers(checks: seq<CheckResult>, test: CheckStatus -> bool)
    ensures forall c :: c in Having(checks, test) <==> c in checks && test(c.status)
  {
    if checks != [] {
      HavingMembers(checks[..|checks| - 1], test);
      assert checks == checks[..|checks| - 1] + [checks[|checks| - 1]];
    }
  }

  /** The first blocking check is the first of the blocking ones. */
  lemma {:induction false} FirstHaving(checks: seq<CheckResult>, test: CheckStatus -> bool) returns (i: nat)
    requires Having(checks, test) != []
    ensures i < |checks| && test(checks[i].status) && checks[i] == Having(checks, test)[0]
    ensures forall k :: 0 <= k < i ==> !test(checks[k].status)
  {
    var n := |checks| - 1;
    if Having(checks[..n], test) != [] {
      i := FirstHaving(checks[..n], test);
    } else {
      i := n;
      HavingMembers(checks[..n], test);
      forall k | 0 <= k < n ensures !test(checks[k].status) { assert checks[..n][k] == checks[k]; }
    }
  }

  method Select(checks: seq<CheckResult>, test: CheckStatus -> bool) returns (r: seq<CheckResult>)
    ensures r == Having(checks, test)
  {
    r := [];
    for i := 0 to |checks|
      invariant r == Having(checks[..i], test)
    {
      assert checks[..i + 1][..i] == checks[..i];
      if test(checks[i].status) { r := r + [checks[i]]; }
    }
    assert checks[..|checks|] == checks;
  }

  /** The overall reason codes: those of the blocking checks, or else of the warning ones, each where it first
      occurs. */
  function OverallCodes(repoMutating: Option<bool>, checks: seq<CheckResult>): seq<string> {
    if repoMutating.None? then [REPO_MUTATING_UNKNOWN]
    else if Having(checks, Blocking) != [] then FirstOccurrences(CodesOf(Having(checks, Blocking), false))
    else FirstOccurrences(CodesOf(Having(checks, Warns), false))
  }

  /** `_aggregate_overall_status`, and the first failed check of the result builder. */
  method AggregateOverall(repoMutating: Option<bool>, checks: seq<CheckResult>)
    returns (overall: Overall, prReady: bool, prUpdateReady: bool, reasonCodes: seq<string>,
        firstFailed: Option<string>)
    ensures repoMutating.None? ==> overall == OverallBlock && !prReady && !prUpdateReady
    ensures repoMutating.Some? ==> overall == OverallOf(checks) && prReady == prUpdateReady == (overall != OverallBlock)
    ensures reasonCodes == OverallCodes(repoMutating, checks)
    ensures match firstFailed
            case None => forall c :: c in checks ==> !Blocking(c.status)
            case Some(name) => exists i :: 0 <= i < |checks| && Blocking(checks[i].status) && checks[i].name == name
                                 && forall k :: 0 <= k < i ==> !Blocking(checks[k].status)
  {
    var blocking := Select(checks, Blocking);
    var warning := Select(checks, Warns);
    HavingMembers(checks, Blocking);
    HavingMembers(checks, Warns);
    assert (blocking != [] ==> blocking[0] in blocking) && (warning != [] ==> warning[0] in warning);
    firstFailed := None;
    if blocking != [] {
      ghost var first := FirstHaving(checks, Blocking);
      firstFailed := Some(blocking[0].name);
    }
    if repoMutating.None? { return OverallBlock, false, false, [REPO_MUTATING_UNKNOWN], firstFailed; }
    var cdeBlocking := exists c :: c in checks && c.phase.CDE? && Blocking(c.status);
    var selBlocking := exists c :: c in checks && c.phase.SEL? && Blocking(c.status);
    prReady := !(cdeBlocking || blocking != []);
    prUpdateReady := !(selBlocking || blocking != []);
    reasonCodes := CollectCodes(blocking, false);
    if blocking != [] {
      overall := OverallBlock;
    } else if warning != [] {
      overall := OverallWarn;
      reasonCodes := CollectCodes(warning, false);
    } else {
      overall := OverallPass;
    }
  }

  function OverallOf(checks: seq<CheckResult>): Overall {
    if exists c :: c in checks && Blocking(c.status) then OverallBlock
    else if exists c :: c in checks && c.status.CheckWarn? then OverallWarn
    else OverallPass
  }

  predicate Declared(phases: seq<Phase>, checks: seq<CheckResult>) {
    forall c :: c in checks ==> c.phase in phases
  }

  lemma {:induction false} OfPhaseMembers(phase: Phase, checks: seq<CheckResult>)
    ensures forall c :: c in OfPhase(phase, checks) <==> c in checks && c.phase == phase
  {
    if checks != [] {
      OfPhaseMembers(phase, checks[..|checks| - 1]);
      assert checks == checks[..|checks| - 1] + [checks[|checks| - 1]];
    }
  }

  function Severity(s: PhaseStatus): nat {
    match s
    case PhaseBlock => 2
    case PhaseWarn => 1
    case _ => 0
  }

  function OverallSeverity(o: Overall): nat {
    match o
    case OverallBlock => 2
    case OverallWarn => 1
    case OverallPass => 0
  }

  /** The overall status is the worst of the phase summaries: none is worse, and one is as bad unless all is well. */
  lemma OverallIsWorstPhase(phases: seq<Phase>, checks: seq<CheckResult>)
    requires Declared(phases, checks)
    ensures forall p :: p in phases ==> Severity(StatusOf(OfPhase(p, checks))) <= OverallSeverity(OverallOf(checks))
    ensures OverallOf(checks) != OverallPass ==>
              exists p :: p in phases && Severity(StatusOf(OfPhase(p, checks))) == OverallSeverity(OverallOf(checks))
  {
    forall p | p in phases ensures Severity(StatusOf(OfPhase(p, checks))) <= OverallSeverity(OverallOf(checks)) {
      OfPhaseMembers(p, checks);
    }
    if c :| c in checks && Blocking(c.status) {
      OfPhaseMembers(c.phase, checks);
      assert c in OfPhase(c.phase, checks);
    } else if c :| c in checks && c.status.CheckWarn? {
      OfPhaseMembers(c.phase, checks);
      assert c in OfPhase(c.phase, checks);
    }
  }

  function SumOver(phases: seq<Phase>, f: Phase -> nat): nat {
    if phases == [] then 0 else SumOver(phases[..|phases| - 1], f) + f(phases[|phases| - 1])
  }

  lemma {:induction false} SumAddsAtOne(phases: seq<Phase>, f: Phase -> nat, g: Phase -> nat, at: Phase, more: nat)
    requires Distinct(phases)
    requires forall p :: g(p) == f(p) + if p == at then more else 0
    ensures SumOver(phases, g) == SumOver(phases, f) + if at in phases then more else 0
  {
    if phases != [] {
      SumAddsAtOne(phases[..|phases| - 1], f, g, at, more);
      assert phases == phases[..|phases| - 1] + [phases[|phases| - 1]];
    }
  }

  lemma {:induction false} SumOfZeros(phases: seq<Phase>, f: Phase -> nat)
    requires forall p :: f(p) == 0
    ensures SumOver(phases, f) == 0
  {
    if phases != [] { SumOfZeros(phases[..|phases| - 1], f); }
  }

  function CheckCounts(checks: seq<CheckResult>): Phase -> nat { p => |OfPhase(p, checks)| }

  function FailCounts(checks: seq<CheckResult>): Phase -> nat { p => CountBlocking(OfPhase(p, checks)) }

  lemma OneMoreCheck(init: seq<CheckResult>, last: CheckResult, p: Phase)
    ensures CheckCounts(init + [last])(p) == CheckCounts(init)(p) + if p == last.phase then 1 else 0
    ensures FailCounts(init + [last])(p) == FailCounts(init)(p) + if p == last.phase
        then (if Blocking(last.status) then 1 else 0) else 0
  {
    assert (init + [last])[..|init|] == init;
    var before := OfPhase(p, init);
    assert (before + [last])[..|before|] == before && before + [] == before;
  }

  lemma {:induction false} CheckCountsSum(phases: seq<Phase>, checks: seq<CheckResult>)
    requires Distinct(phases) && Declared(phases, checks)
    ensures SumOver(phases, CheckCounts(checks)) == |checks|
  {
    if checks == [] {
      SumOfZeros(phases, CheckCounts(checks));
    } else {
      var init, last := checks[..|checks| - 1], checks[|checks| - 1];
      assert checks == init + [last] && last in checks;
      CheckCountsSum(phases, init);
      forall p { OneMoreCheck(init, last, p); }
      SumAddsAtOne(phases, CheckCounts(init), CheckCounts(checks), last.phase, 1);
    }
  }

  lemma {:induction false} FailCountsSum(phases: seq<Phase>, checks: seq<CheckResult>)
    requires Distinct(phases) && Declared(phases, checks)
    ensures SumOver(phases, FailCounts(checks)) == CountBlocking(checks)
  {
    if checks == [] {
      SumOfZeros(phases, FailCounts(checks));
    } else {
      var init, last := checks[..|checks| - 1], checks[|checks| - 1];
      assert checks == init + [last] && last in checks;
      FailCountsSum(phases, init);
      forall p { OneMoreCheck(init, last, p); }
      SumAddsAtOne(phases, FailCounts(init), FailCounts(checks), last.phase, if Blocking(last.status) then 1 else 0);
    }
  }

  /** Every check is counted in exactly one phase: check counts and fail counts sum to the totals over all checks. */
  lemma CountsSum(phases: seq<Phase>, checks: seq<CheckResult>)
    requires Distinct(phases) && Declared(phases, checks)
    ensures SumOver(phases, CheckCounts(checks)) == |checks|
    ensures SumOver(phases, FailCounts(checks)) == CountBlocking(checks)
  {
    CheckCountsSum(phases, checks);
    FailCountsSum(phases, checks);
  }

  /** So they do over the phases the precheck summarizes, when every check belongs to one of them. */
  lemma RollupConserves(checks: seq<CheckResult>)
    requires Declared(PHASES, checks)
    ensures SumOver(PHASES, CheckCounts(checks)) == |checks|
    ensures SumOver(PHASES, FailCounts(checks)) == CountBlocking(checks)
  {
    CountsSum(PHASES, checks);
  }

  /** The PR is held back whenever the composed readiness is neither shard_first nor a justified fallback. */
  lemma ReadinessGatesOverall(
      stem: string -> string, summary: Option<Summary>, coverage: Option<RuntimeBudget.Coverage>,
      render: Readiness -> seq<string>, checks: seq<CheckResult>)
    requires ReadinessCheck(ComposedReadiness(stem, summary, coverage), render) in checks
    requires OverallOf(checks) != OverallBlock
    ensures var r := ComposedReadiness(stem, summary, coverage);
            || (r.status.FallbackJustified? && FallbackObserved(coverage))
            || (r.status.ShardFirst? && !FallbackObserved(coverage) && summary.Some?
                && r.missing == [] && r.failed == [] && r.required != [])
  {
    ComposedStatus(stem, summary, coverage);
  }
}
