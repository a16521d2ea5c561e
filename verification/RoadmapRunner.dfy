/**
 The roadmap realization runner (scripts/roadmap_realization_runner.py): step contracts
 go through six gates, their tests run, their status moves, contract files are written,
 and one verdict is reported for the whole invocation.

 `Run` and `Finish` specify an invocation; `Runner.RealizeSteps` is the program.
 */
module RoadmapRunner {
  import opened Wrappers
  import opened Text
  import opened Ordering
  import opened RealizationRuntime
  import opened BehavioralProof

  datatype Contract = Contract(
    stepId: string,
    owner: string,
    runtimeMode: bool,                       // realization_mode == "runtime_realization"
    surface: Surface,
    dependsOn: seq<string>,
    targetContracts: seq<string>,
    realizationStatus: Status,
    authoritativeStatus: Option<Status>)     // the "_authoritative_status" key the runner adds

  datatype OwnerPolicy = OwnerPolicy(modulePrefixes: seq<string>, testPrefixes: seq<string>)

  /** What an invocation reads besides the contract files: arbitrary inputs. */
  datatype World = World(
    lex: Lexicon,
    interpreter: string,
    policy: Option<map<string, OwnerPolicy>>,      // None: the policy file is missing
    schemaOk: Contract -> bool,
    traceOk: Contract -> bool,
    scan: Contract -> Option<nat>,                 // forbidden pattern hits, None: a scanned file is missing
    callableAt: (string, string) -> bool,
    pathExists: string -> bool,
    returnCode: (string, nat) -> int)              // of the n-th test a step runs

  const SUPPORTED_STEPS := ["RF-02", "RF-03"]
  const BASELINE: map<string, Status> := map["RF-01" := RuntimeRealized]

  datatype Category =
    | ContractValidation | DependencyValidation | OwnershipValidation
    | ForbiddenPattern | RuntimeEntrypoint | BehavioralTest

  datatype LoadError =
    | MissingContract | SchemaRejected | SemanticsRejected | StepMismatch
    | TraceRejected | ForgedStatus | UnknownStatus

  datatype TestRun = TestRun(command: string, argv: seq<string>, code: int)

  datatype Update = Update(step: string, from: Status, to: Status)

  // -------------------------------------------------------------- loading contracts

  predicate SemanticsOk(c: Contract) {
    && c.surface.targetModules != []
    && c.surface.acceptanceChecks != []
    && (c.runtimeMode ==> c.surface.targetTests != [] && c.surface.runtimeEntrypoints != [])
  }

  function Load(w: World, files: map<string, Contract>, id: string): Result<Contract, LoadError> {
    if id !in files then Err(MissingContract)
    else
      var c := files[id];
      if !w.schemaOk(c) then Err(SchemaRejected)
      else if !SemanticsOk(c) then Err(SemanticsRejected)
      else if c.stepId != id then Err(StepMismatch)
      else if !w.traceOk(c) then Err(TraceRejected)
      else if Ready(c.realizationStatus) then Err(ForgedStatus)
      else match AuthoritativeStart(c.realizationStatus)
           case None => Err(UnknownStatus)
           case Some(start) => Ok(c.(authoritativeStatus := Some(start)))
  }

  /** The contracts that load, with their start status. */
  function Contracts(w: World, files: map<string, Contract>, steps: seq<string>): map<string, Contract> {
    map id | id in steps && Load(w, files, id).Ok? :: Load(w, files, id).value
  }

  function LoadFailures(w: World, files: map<string, Contract>, steps: seq<string>): map<string, LoadError> {
    map id | id in steps && Load(w, files, id).Err? :: Load(w, files, id).error
  }

  function StartOf(c: Contract): Status {
    match c.authoritativeStatus
    case Some(s) => s
    case None => c.realizationStatus
  }

  function StartStatus(contracts: map<string, Contract>): map<string, Status> {
    BASELINE + map id | id in contracts :: StartOf(contracts[id])
  }

  // ---------------------------------------------------------------------- the gates

  predicate AnyPrefix(s: string, prefixes: seq<string>) {
    exists p :: p in prefixes && StartsWith(s, p)
  }

  /** A test command stays inside the owner's test prefixes; None: shlex raises. */
  function TestOwned(lex: Lexicon, policy: OwnerPolicy, command: string): Option<bool> {
    if !Contains(command, "tests/") then Some(false)
    else match lex.shlexSplit(command)
         case None => None
         case Some(tokens) =>
           Some(TestTokens(tokens) != [] && forall t :: t in TestTokens(tokens) ==> AnyPrefix(t, policy.testPrefixes))
  }

  /** `_validate_ownership_boundaries`, None: shlex raises on a test command. */
  function Ownership(w: World, policies: map<string, OwnerPolicy>, c: Contract): Option<bool> {
    if c.owner !in policies then Some(false)
    else
      var policy := policies[c.owner];
      if exists t :: t in c.surface.targetTests && TestOwned(w.lex, policy, t).None? then None
      else Some(
        && (forall m :: m in c.surface.targetModules ==> AnyPrefix(m, policy.modulePrefixes))
        && (forall t :: t in c.surface.targetTests ==> TestOwned(w.lex, policy, t) == Some(true)))
  }

  predicate EntrypointExists(w: World, entry: string) {
    var (moduleName, found, symbol) := Partition(entry, ':');
    found && w.callableAt(moduleName, symbol)
  }

  predicate EntrypointsExist(w: World, c: Contract) {
    forall e :: e in c.surface.runtimeEntrypoints ==> EntrypointExists(w, e)
  }

  predicate VerificationChecks(w: World, c: Contract) {
    && (forall p :: p in c.targetContracts ==> w.pathExists(p))
    && (forall k :: k in c.surface.acceptanceChecks ==> k.required)
  }

  function RunTests(w: World, id: string, commands: seq<string>): (r: seq<TestRun>)
    requires forall t :: t in commands ==> w.lex.shlexSplit(t).Some?
    ensures |r| == |commands|
    ensures forall i :: 0 <= i < |r| ==>
      r[i] == TestRun(commands[i], PinInterpreter(w.lex, w.interpreter, w.lex.shlexSplit(commands[i]).value),
        w.returnCode(id, i))
  {
    seq(|commands|, i requires 0 <= i < |commands| =>
      TestRun(commands[i], PinInterpreter(w.lex, w.interpreter, w.lex.shlexSplit(commands[i]).value),
        w.returnCode(id, i)))
  }

  predicate AllPassed(runs: seq<TestRun>) {
    forall i :: 0 <= i < |runs| ==> runs[i].code == 0
  }

  // ------------------------------------------------------------ one step's outcome

  datatype Outcome =
    | Raised
    | Failed(categories: set<Category>, dependency: bool, evidence: Option<seq<TestRun>>)
    | Passed(next: Status, final: Status, runs: seq<TestRun>)

  function Flag(c: Category, raised: bool): set<Category> {
    if raised then {c} else {}
  }

  /** The status after the step's one or two transitions; None where the source raises. */
  function Transitions(prior: Status, g: Gates): Option<(Status, Status)> {
    match NextStatus(prior, g)
    case None => None
    case Some(next) =>
      if next.RuntimeRealized? && g.verification then
        match NextStatus(next, g)
        case None => None
        case Some(final) => Some((next, final))
      else Some((next, next))
  }

  /** Lines 589-627: the verdict on a step whose gates have all been evaluated. */
  function Conclude(prior: Status, g: Gates, categories: set<Category>, runs: seq<TestRun>): Outcome {
    match Transitions(prior, g)
    case None => Raised
    case Some((next, final)) =>
      if categories != {} || !Ready(next) then Failed(categories, false, Some(runs)) else Passed(next, final, runs)
  }

  /** The gates after dependencies and ownership, given the number of forbidden-pattern hits. */
  ghost function Gated(w: World, id: string, c: Contract, prior: Status, earlier: set<Category>, hits: nat): Outcome {
    var runs := if Admissible(w.lex, c.surface) then RunTests(w, id, c.surface.targetTests) else [];
    var tested := Admissible(w.lex, c.surface) && AllPassed(runs);
    var found := EntrypointsExist(w, c);
    var categories := earlier + Flag(ForbiddenPattern, hits != 0) + Flag(RuntimeEntrypoint, !found)
        + Flag(BehavioralTest, !tested);
    var gates := Gates(true, true, hits == 0, found, tested, VerificationChecks(w, c) && Strict(w.lex, c.surface));
    Conclude(prior, gates, categories, runs)
  }

  /** What one attempted step comes to; `earlier` are the failures already recorded for its id. */
  ghost function Evaluate(w: World, policies: map<string, OwnerPolicy>, id: string, c: Contract,
                          attempted: seq<string>, status: map<string, Status>, earlier: set<Category>): Outcome
    requires id in status
  {
    var dependencyOk := ValidateDependencies(id, c.dependsOn, attempted, status).None?;
    match Ownership(w, policies, c)
    case None => Raised
    case Some(owned) =>
      if !dependencyOk || !owned then
        Failed(earlier + Flag(DependencyValidation, !dependencyOk)
          + Flag(OwnershipValidation, !owned), !dependencyOk, None)
      else
        match w.scan(c)
        case None => Raised
        case Some(hits) => Gated(w, id, c, status[id], earlier, hits)
  }

  // -------------------------------------------------------------------- the fold

  datatype RunState = RunState(
    files: map<string, Contract>,
    status: map<string, Status>,
    attempted: seq<string>,
    passed: seq<string>,
    failed: seq<string>,
    critical: map<string, set<Category>>,
    dependencyFailures: set<string>,
    updates: seq<Update>,
    runs: map<string, seq<TestRun>>,
    crashed: bool)

  function CriticalOf(critical: map<string, set<Category>>, id: string): set<Category> {
    if id in critical then critical[id] else {}
  }

  /** The update a change of status is recorded as; none when the status stays. */
  function Move(id: string, from: Status, to: Status): seq<Update> { if to != from then [Update(id, from, to)] else [] }

  function StepUpdates(id: string, prior: Status, next: Status, final: Status): seq<Update> {
    Move(id, prior, next) + Move(id, next, final)
  }

  function Apply(st: RunState, id: string, c: Contract, o: Outcome): (r: RunState)
    requires id in st.status
    ensures r.status.Keys == st.status.Keys
  {
    match o
    case Raised => st.(crashed := true)
    case Failed(categories, dependency, runs) =>
      st.(critical := st.critical[id := categories],
          failed := st.failed + [id],
          dependencyFailures := if dependency then st.dependencyFailures + {id} else st.dependencyFailures,
          runs := if runs.Some? then st.runs[id := runs.value] else st.runs)
    case Passed(next, final, runs) =>
      var prior := st.status[id];
      st.(files := if next != prior || final != next then st.files[id := c.(realizationStatus := final)] else st.files,
          status := st.status[id := final],
          updates := st.updates + StepUpdates(id, prior, next, final),
          passed := st.passed + [id],
          runs := st.runs[id := runs])
  }

  ghost function Step(
      w: World, policies: map<string, OwnerPolicy>, contracts: map<string, Contract>, st: RunState, id: string)
      : (r: RunState)
    requires contracts.Keys <= st.status.Keys
    ensures contracts.Keys <= r.status.Keys
  {
    if st.crashed || id !in contracts then st
    else
      var entered := st.(attempted := st.attempted + [id]);
      Apply(entered, id, contracts[id],
            Evaluate(w, policies, id, contracts[id], entered.attempted, st.status, CriticalOf(st.critical, id)))
  }

  ghost function Run(
      w: World, policies: map<string, OwnerPolicy>, contracts: map<string, Contract>, st: RunState, steps: seq<string>)
      : (r: RunState)
    requires contracts.Keys <= st.status.Keys
    ensures contracts.Keys <= r.status.Keys
  {
    if steps == [] then st
    else Step(w, policies, contracts, Run(w, policies, contracts, st, steps[..|steps| - 1]), steps[|steps| - 1])
  }

  function StartCritical(steps: seq<string>, failures: map<string, LoadError>): map<string, set<Category>> {
    map id | id in steps :: Flag(ContractValidation, id in failures)
  }

  function StartState(files: map<string, Contract>, contracts: map<string, Contract>,
                      steps: seq<string>, failures: map<string, LoadError>): RunState {
    RunState(files, StartStatus(contracts), [], [], SortedStrings(failures.Keys),
             StartCritical(steps, failures), {}, [], map[], false)
  }

  function Start(w: World, files: map<string, Contract>, steps: seq<string>): RunState {
    StartState(files, Contracts(w, files, steps), steps, LoadFailures(w, files, steps))
  }

  // ------------------------------------------------------------------- the report

  datatype Report = Report(
    steps: seq<string>,
    attempted: seq<string>,
    passed: seq<string>,
    failed: seq<string>,
    loadFailures: map<string, LoadError>,
    forged: set<string>,
    dependencyFailures: set<string>,
    critical: map<string, set<Category>>,
    updates: seq<Update>,
    runs: map<string, seq<TestRun>>,
    pass: bool)

  predicate AnyCritical(critical: map<string, set<Category>>) {
    exists id :: id in critical && critical[id] != {}
  }

  function Finish(steps: seq<string>, failures: map<string, LoadError>, st: RunState): Report {
    var anyCritical := AnyCritical(st.critical);
    var blocked := st.dependencyFailures != {} && |steps| > 1;
    var wiped := anyCritical || blocked;
    Report(
      steps, st.attempted,
      if wiped then [] else SortedStrings(SetOf(st.passed)),
      SortedStrings(SetOf(st.failed)),
      failures,
      (set id | id in failures && failures[id].ForgedStatus?),
      st.dependencyFailures,
      if blocked
        then (map id | id in st.critical :: st.critical[id] + Flag(DependencyValidation, id in st.attempted))
        else st.critical,
      if wiped then [] else st.updates,
      st.runs,
      |steps| > 0 && !anyCritical && st.failed == [])
  }

  datatype RunError = UnsupportedStep | MissingPolicy | RaisedMidRun

  /** The state in which the step loop ends. */
  ghost function Invocation(w: World, files: map<string, Contract>, steps: seq<string>): RunState
    requires w.policy.Some?
  {
    Run(w, w.policy.value, Contracts(w, files, steps), Start(w, files, steps), steps)
  }

  predicate Supported(steps: seq<string>) {
    forall id :: id in steps ==> id in SUPPORTED_STEPS
  }

  ghost function Realize(
      w: World, files: map<string, Contract>, steps: seq<string>): (Result<Report, RunError>, map<string, Contract>) {
    if !Supported(steps) then (Err(UnsupportedStep), files)
    else if w.policy.None? then (Err(MissingPolicy), files)
    else
      var end := Invocation(w, files, steps);
      if end.crashed then (Err(RaisedMidRun), end.files)
      else (Ok(Finish(steps, LoadFailures(w, files, steps), end)), end.files)
  }

  // ------------------------------------------------------------------ the program

  method ValidateOwnership(w: World, policies: map<string, OwnerPolicy>, c: Contract) returns (r: Option<bool>)
    ensures r == Ownership(w, policies, c)
  {
    if c.owner !in policies { return Some(false); }
    var policy := policies[c.owner];
    var invalidModules: seq<string> := [];
    for i := 0 to |c.surface.targetModules|
      invariant invalidModules == [] <==> forall m :: m in c.surface.targetModules[..i] ==>
          AnyPrefix(m, policy.modulePrefixes)
    {
      var m := c.surface.targetModules[i];
      assert c.surface.targetModules[..i + 1] == c.surface.targetModules[..i] + [m];
      if !AnyPrefix(m, policy.modulePrefixes) { invalidModules := invalidModules + [m]; }
    }
    var tests := c.surface.targetTests;
    var invalidTests: seq<string> := [];
    for i := 0 to |tests|
      invariant forall t :: t in tests[..i] ==> TestOwned(w.lex, policy, t).Some?
      invariant invalidTests == [] <==> forall t :: t in tests[..i] ==> TestOwned(w.lex, policy, t) == Some(true)
    {
      assert tests[..i + 1] == tests[..i] + [tests[i]];
      match TestOwned(w.lex, policy, tests[i])
      case None => return None;
      case Some(owned) => if !owned { invalidTests := invalidTests + [tests[i]]; }
    }
    assert c.surface.targetModules[..|c.surface.targetModules|] == c.surface.targetModules && tests[..|tests|] == tests;
    r := Some(invalidModules == [] && invalidTests == []);
  }

  method RunBehavioralTests(w: World, id: string, commands: seq<string>) returns (runs: seq<TestRun>)
    requires forall t :: t in commands ==> w.lex.shlexSplit(t).Some?
    ensures runs == RunTests(w, id, commands)
  {
    runs := [];
    for i := 0 to |commands|
      invariant |runs| == i
      invariant forall k :: 0 <= k < i ==> runs[k] == RunTests(w, id, commands)[k]
    {
      var argv := PinInterpreter(w.lex, w.interpreter, w.lex.shlexSplit(commands[i]).value);
      runs := runs + [TestRun(commands[i], argv, w.returnCode(id, i))];
    }
  }

  /** The commands of the records classified behavioural. */
  function ReviewedCommands(records: seq<Record>): seq<string> {
    if records == [] then []
    else (if records[0].class_.Behavioral? then [records[0].command] else []) + ReviewedCommands(records[1..])
  }

  lemma {:induction false} AllReviewed(records: seq<Record>)
    requires forall i :: 0 <= i < |records| ==> records[i].class_.Behavioral?
    ensures |ReviewedCommands(records)| == |records|
    ensures forall i :: 0 <= i < |records| ==> ReviewedCommands(records)[i] == records[i].command
  {
    if records != [] { AllReviewed(records[1..]); }
  }

  /** Lines 576-588: the test policy, the test runs it admits, and the verification flag. */
  method ProveBehavior(w: World, id: string, c: Contract) returns (passed: bool, runs: seq<TestRun>, verified: bool)
    requires forall t :: t in c.surface.targetTests ==> w.lex.shlexSplit(t).Some?
    ensures runs == if Admissible(w.lex, c.surface) then RunTests(w, id, c.surface.targetTests) else []
    ensures passed <==> Admissible(w.lex, c.surface) && AllPassed(runs)
    ensures verified <==> VerificationChecks(w, c) && Strict(w.lex, c.surface)
  {
    var check := ValidateIntegrity(w.lex, c.surface);
    runs := [];
    if check.passed {
      AllReviewed(check.records);
      var commands := ReviewedCommands(check.records);
      assert commands == c.surface.targetTests;
      runs := RunBehavioralTests(w, id, commands);
    }
    passed := check.passed && AllPassed(runs);
    verified := VerificationChecks(w, c) && check.strictPassed;
  }

  lemma OwnedTestsSplit(w: World, policies: map<string, OwnerPolicy>, c: Contract)
    requires Ownership(w, policies, c) == Some(true)
    ensures forall t :: t in c.surface.targetTests ==> w.lex.shlexSplit(t).Some?
  {
    assert forall t :: t in c.surface.targetTests ==> TestOwned(w.lex, policies[c.owner], t) == Some(true);
  }

  method Attempt(w: World, policies: map<string, OwnerPolicy>, id: string, c: Contract,
                 attempted: seq<string>, status: map<string, Status>, earlier: set<Category>) returns (o: Outcome)
    requires id in status
    ensures o == Evaluate(w, policies, id, c, attempted, status, earlier)
  {
    var critical := earlier;
    var dependencyPassed := ValidateDependencies(id, c.dependsOn, attempted, status).None?;
    if !dependencyPassed { critical := critical + {DependencyValidation}; }
    var ownership := ValidateOwnership(w, policies, c);
    if ownership.None? { return Raised; }
    if !ownership.value { critical := critical + {OwnershipValidation}; }
    assert critical == earlier + Flag(DependencyValidation, !dependencyPassed)
        + Flag(OwnershipValidation, !ownership.value);
    if !dependencyPassed || !ownership.value { return Failed(critical, !dependencyPassed, None); }

    var hits := w.scan(c);
    if hits.None? { return Raised; }
    if hits.value != 0 { critical := critical + {ForbiddenPattern}; }
    var entrypointsPassed := EntrypointsExist(w, c);
    if !entrypointsPassed { critical := critical + {RuntimeEntrypoint}; }
    OwnedTestsSplit(w, policies, c);
    var behavioralPassed, runs, verification := ProveBehavior(w, id, c);
    if !behavioralPassed { critical := critical + {BehavioralTest}; }
    assert critical == earlier + Flag(ForbiddenPattern, hits.value != 0) + Flag(RuntimeEntrypoint, !entrypointsPassed)
        + Flag(BehavioralTest, !behavioralPassed);
    o := Conclude(status[id], Gates(true, true, hits.value == 0, entrypointsPassed, behavioralPassed, verification),
        critical, runs);
  }

  /** A raise ends the loop: the steps after it change nothing. */
  lemma {:induction false} CrashEndsRun(w: World, policies: map<string, OwnerPolicy>, contracts: map<string, Contract>,
                                        st: RunState, steps: seq<string>, n: nat)
    requires contracts.Keys <= st.status.Keys && n <= |steps|
    requires Run(w, policies, contracts, st, steps[..n]).crashed
    ensures Run(w, policies, contracts, st, steps) == Run(w, policies, contracts, st, steps[..n])
  {
    if n < |steps| {
      assert steps[..|steps| - 1][..n] == steps[..n];
      CrashEndsRun(w, policies, contracts, st, steps[..|steps| - 1], n);
    } else {
      assert steps[..n] == steps;
    }
  }

  /** The contract directory together with the working variables of `realize_steps`. */
  class Runner {
    var files: map<string, Contract>
    var status: map<string, Status>
    var attempted: seq<string>
    var passed: seq<string>
    var failed: seq<string>
    var critical: map<string, set<Category>>
    var dependencyFailures: set<string>
    var updates: seq<Update>
    var runs: map<string, seq<TestRun>>

    constructor (initial: map<string, Contract>)
      ensures files == initial
    {
      files := initial;
    }

    ghost function State(): RunState
      reads this
    {
      RunState(files, status, attempted, passed, failed, critical, dependencyFailures, updates, runs, false)
    }

    method LoadContracts(w: World, steps: seq<string>)
      returns (contracts: map<string, Contract>, failures: map<string, LoadError>)
      ensures contracts == Contracts(w, files, steps)
      ensures failures == LoadFailures(w, files, steps)
    {
      contracts, failures := map[], map[];
      for i := 0 to |steps|
        invariant contracts == Contracts(w, files, steps[..i])
        invariant failures == LoadFailures(w, files, steps[..i])
      {
        assert steps[..i + 1] == steps[..i] + [steps[i]];
        match Load(w, files, steps[i])
        case Ok(c) => contracts := contracts[steps[i] := c];
        case Err(e) => failures := failures[steps[i] := e];
      }
      assert steps[..|steps|] == steps;
    }

    method RecordFailure(id: string, categories: set<Category>, dependency: bool, evidence: Option<seq<TestRun>>)
      modifies `critical, `failed, `dependencyFailures, `runs
      ensures critical == old(critical)[id := categories] && failed == old(failed) + [id]
      ensures dependencyFailures == if dependency then old(dependencyFailures) + {id} else old(dependencyFailures)
      ensures runs == if evidence.Some? then old(runs)[id := evidence.value] else old(runs)
    {
      critical := critical[id := categories];
      failed := failed + [id];
      if dependency { dependencyFailures := dependencyFailures + {id}; }
      if evidence.Some? { runs := runs[id := evidence.value]; }
    }

    /** Lines 605-630: the status moves and contract writes of a step that passes. */
    method RecordPass(id: string, contract: Contract, next: Status, final: Status, evidence: seq<TestRun>)
      requires id in status
      modifies `files, `status, `updates, `passed, `runs
      ensures files == if next != old(status)[id] || final != next
                       then old(files)[id := contract.(realizationStatus := final)] else old(files)
      ensures status == old(status)[id := final]
      ensures updates == old(updates) + StepUpdates(id, old(status)[id], next, final)
      ensures passed == old(passed) + [id] && runs == old(runs)[id := evidence]
    {
      runs := runs[id := evidence];
      var prior := status[id];
      if next != prior {
        files := files[id := contract.(realizationStatus := next)];
        updates := updates + [Update(id, prior, next)];
        status := status[id := next];
      }
      if final != next {
        files := files[id := contract.(realizationStatus := final)];
        updates := updates + [Update(id, next, final)];
        status := status[id := final];
      }
      passed := passed + [id];
    }

    method Record(id: string, contract: Contract, outcome: Outcome)
      requires id in status && !outcome.Raised?
      modifies this
      ensures State() == Apply(old(State()), id, contract, outcome)
    {
      match outcome
      case Failed(categories, dependency, evidence) => RecordFailure(id, categories, dependency, evidence);
      case Passed(next, final, evidence) => RecordPass(id, contract, next, final, evidence);
    }

    /** One turn of the loop over the steps. */
    method AttemptOne(w: World, policies: map<string, OwnerPolicy>, contracts: map<string, Contract>, id: string)
      returns (raised: bool)
      requires contracts.Keys <= status.Keys
      modifies this
      ensures contracts.Keys <= status.Keys
      ensures State().(crashed := raised) == Step(w, policies, contracts, old(State()), id)
    {
      if id !in contracts { return false; }
      attempted := attempted + [id];
      var outcome := Attempt(w, policies, id, contracts[id], attempted, status, CriticalOf(critical, id));
      raised := outcome.Raised?;
      if !raised { Record(id, contracts[id], outcome); }
    }

    /** The loop over the steps; it ends early when a step raises. */
    method AttemptAll(
        w: World, policies: map<string, OwnerPolicy>, contracts: map<string, Contract>, steps: seq<string>)
      returns (raised: bool)
      requires contracts.Keys <= status.Keys
      modifies this
      ensures State().(crashed := raised) == Run(w, policies, contracts, old(State()), steps)
    {
      ghost var start := State();
      for i := 0 to |steps|
        invariant contracts.Keys <= status.Keys
        invariant State() == Run(w, policies, contracts, start, steps[..i])
      {
        assert steps[..i + 1][..i] == steps[..i];
        raised := AttemptOne(w, policies, contracts, steps[i]);
        if raised {
          CrashEndsRun(w, policies, contracts, start, steps, i + 1);
          return;
        }
      }
      assert steps[..|steps|] == steps;
      raised := false;
    }

    /** Lines 514-534: what the step loop starts from. */
    method Reset(contracts: map<string, Contract>, steps: seq<string>, failures: map<string, LoadError>)
      modifies this
      ensures State() == StartState(old(files), contracts, steps, failures)
    {
      status := StartStatus(contracts);
      attempted, passed, failed := [], [], SortedStrings(failures.Keys);
      critical := StartCritical(steps, failures);
      dependencyFailures, updates, runs := {}, [], map[];
    }

    /** `realize_steps`. */
    method RealizeSteps(w: World, steps: seq<string>) returns (r: Result<Report, RunError>)
      modifies this
      ensures (r, files) == Realize(w, old(files), steps)
    {
      if !Supported(steps) { return Err(UnsupportedStep); }
      if w.policy.None? { return Err(MissingPolicy); }
      var contracts, failures := LoadContracts(w, steps);
      Reset(contracts, steps, failures);
      var raised := AttemptAll(w, w.policy.value, contracts, steps);
      if raised { return Err(RaisedMidRun); }
      r := Ok(Finish(steps, failures,
          RunState(files, status, attempted, passed, failed, critical, dependencyFailures, updates, runs, false)));
    }
  }
}
