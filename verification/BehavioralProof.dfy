/** Which declared tests count as behavioural proof (scripts/roadmap_realization_runner.py). */
module BehavioralProof {
  import opened Wrappers
  import opened Ordering
  import opened Text

  /** Text operations whose definition is outside the model: shlex, regular expressions, case folding, path names. */
  datatype Lexicon = Lexicon(
    shlexSplit: string -> Option<seq<string>>,   // None: unbalanced quoting, the call raises
    lower: string -> string,
    stem: string -> string,                      // Path(p).stem
    baseName: string -> string,                  // Path(p).name
    rejected: string -> bool,                    // some REJECTED_TEST_PATTERNS entry matches
    weak: string -> bool,                        // some WEAK_TEST_PATTERNS entry matches
    weakSelector: string -> bool,                // one of the first two WEAK_TEST_PATTERNS entries matches
    reviewedTarget: string -> bool               // some REVIEWED_PYTEST_TARGET_PATTERNS entry matches
  )

  datatype Check = Check(checkId: string, required: bool)

  /** The parts of a step contract that bear on its tests. */
  datatype Surface = Surface(
    targetModules: seq<string>,
    targetTests: seq<string>,
    runtimeEntrypoints: seq<string>,
    acceptanceChecks: seq<Check>)

  datatype Class = Behavioral | Weak | Invalid

  datatype Record = Record(command: string, class_: Class, targets: seq<string>)

  function TestTokens(tokens: seq<string>): (r: seq<string>)
    ensures forall t :: t in r <==> t in tokens && StartsWith(t, "tests/")
  {
    if tokens == [] then []
    else (if StartsWith(tokens[0], "tests/") then [tokens[0]] else []) + TestTokens(tokens[1..])
  }

  predicate WeakSelector(lex: Lexicon, tokens: seq<string>) {
    "-k" in tokens &&
    var k := FirstIndex(tokens, "-k");
    k + 1 >= |tokens| || lex.weakSelector(tokens[k + 1])
  }

  predicate Selects(tokens: seq<string>) {
    "-k" in tokens || exists t :: t in TestTokens(tokens) && Contains(t, "::")
  }

  predicate Reviewed(lex: Lexicon, command: string, tokens: seq<string>) {
    && (StartsWith(command, "pytest tests/") || StartsWith(command, "python -m pytest tests/"))
    && !lex.rejected(command)
    && TestTokens(tokens) != []
    && (forall t :: t in TestTokens(tokens) ==> lex.reviewedTarget(t))
    && Selects(tokens)
  }

  /** `_classify_behavioral_test_command`, for a command that shlex can split. */
  function Classify(lex: Lexicon, command: string): Record
    requires lex.shlexSplit(command).Some?
  {
    var tokens := lex.shlexSplit(command).value;
    var c :=
      if !Reviewed(lex, command, tokens) then Invalid
      else if lex.weak(command) || WeakSelector(lex, tokens) then Weak
      else Behavioral;
    Record(command, c, TestTokens(tokens))
  }

  predicate IsBehavioral(lex: Lexicon, command: string) {
    lex.shlexSplit(command).Some? && Classify(lex, command).class_.Behavioral?
  }

  // ------------------------------------------------------------------ relevance

  const RUNTIME_SUFFIX := "_runtime"

  function WithoutSuffix(t: string): set<string> {
    {t} + if EndsWith(t, RUNTIME_SUFFIX) then {t[..|t| - |RUNTIME_SUFFIX|]} else {}
  }

  function ModuleTokens(lex: Lexicon, s: Surface): set<string> {
    set m, t | m in s.targetModules && t in WithoutSuffix(lex.lower(lex.stem(m))) :: t
  }

  function EntrypointParts(lex: Lexicon, entry: string): set<string> {
    var (moduleName, _, symbol) := Partition(entry, ':');
    var pieces := Split(moduleName, '.');
    WithoutSuffix(lex.lower(pieces[|pieces| - 1])) + {lex.lower(symbol)}
  }

  function EntrypointTokens(lex: Lexicon, s: Surface): set<string> {
    set e, t | e in s.runtimeEntrypoints && t in EntrypointParts(lex, e) :: t
  }

  function CheckParts(lex: Lexicon, c: Check): set<string> {
    var id := lex.lower(c.checkId);
    {id} + (set piece | piece in Split(id, '_') && |piece| > 3)
  }

  function AcceptanceTokens(lex: Lexicon, s: Surface): set<string> {
    set c, t | c in s.acceptanceChecks && t in CheckParts(lex, c) :: t
  }

  function JoinSpace(parts: seq<string>): string {
    if parts == [] then "" else if |parts| == 1 then parts[0] else parts[0] + " " + JoinSpace(parts[1..])
  }

  predicate Mentions(surface: string, tokens: set<string>) {
    exists t :: t in tokens && t != "" && Contains(surface, t)
  }

  function TargetSurface(lex: Lexicon, targets: seq<string>): string {
    lex.lower(JoinSpace(targets))
  }

  function Targets(lex: Lexicon, command: string): seq<string> {
    if lex.shlexSplit(command).Some? then TestTokens(lex.shlexSplit(command).value) else []
  }

  predicate MatchesModule(lex: Lexicon, s: Surface, command: string) {
    Mentions(TargetSurface(lex, Targets(lex, command)), ModuleTokens(lex, s))
  }

  predicate MatchesEntrypoint(lex: Lexicon, s: Surface, command: string) {
    Mentions(TargetSurface(lex, Targets(lex, command)), EntrypointTokens(lex, s))
  }

  predicate MatchesAcceptance(lex: Lexicon, s: Surface, command: string) {
    Mentions(TargetSurface(lex, Targets(lex, command)), AcceptanceTokens(lex, s))
  }

  predicate Relevant(lex: Lexicon, s: Surface, command: string) {
    MatchesModule(lex, s, command) || MatchesEntrypoint(lex, s, command) || MatchesAcceptance(lex, s, command)
  }

  ghost predicate AllBehavioral(lex: Lexicon, tests: seq<string>) {
    forall i :: 0 <= i < |tests| ==> IsBehavioral(lex, tests[i])
  }

  /** Tests are declared, every one of them is behavioural, and one is relevant to the step. */
  ghost predicate Admissible(lex: Lexicon, s: Surface) {
    && s.targetTests != []
    && AllBehavioral(lex, s.targetTests)
    && exists t :: t in s.targetTests && Relevant(lex, s, t)
  }

  /** Admissible, with the entrypoints and the acceptance checks each touched by a declared test. */
  ghost predicate Strict(lex: Lexicon, s: Surface) {
    && Admissible(lex, s)
    && (exists t :: t in s.targetTests && MatchesEntrypoint(lex, s, t))
    && (exists t :: t in s.targetTests && MatchesAcceptance(lex, s, t))
  }

  datatype Reason = ZeroBehavioral | WeakDeclared | InvalidDeclared | WeakOnly | NotRelevant | StrictCoverageMissing

  datatype PolicyCheck = PolicyCheck(
    records: seq<Record>,
    behavioralCount: nat,
    weakCount: nat,
    invalidCount: nat,
    relevantCount: nat,
    entrypointCovered: bool,
    acceptanceCovered: bool,
    passed: bool,
    strictPassed: bool,
    reasons: seq<Reason>)

  /** Why the declared tests fall short of a behavioural proof. */
  function Shortfalls(behavioral: nat, weak: nat, invalid: nat, relevant: nat): (r: seq<Reason>)
    ensures r == [] <==> behavioral > 0 && weak == 0 && invalid == 0 && relevant > 0
  {
    (if behavioral == 0 then [ZeroBehavioral] else [])
    + (if weak > 0 then [WeakDeclared] else [])
    + (if invalid > 0 then [InvalidDeclared] else [])
    + (if weak > 0 && behavioral == 0 then [WeakOnly] else [])
    + (if behavioral > 0 && relevant == 0 then [NotRelevant] else [])
  }

  /** The coverage a list of commands provides; only behavioural commands count. */
  datatype Coverage = Coverage(relevant: nat, entrypoint: bool, acceptance: bool)

  function OfClass(c: Class): Record -> bool { (r: Record) => r.class_ == c }

  /** The behavioural records whose command passes a test. */
  function Touches(matches: string -> bool): Record -> bool {
    (r: Record) => r.class_.Behavioral? && matches(r.command)
  }

  function RelevantTo(lex: Lexicon, s: Surface): string -> bool { command => Relevant(lex, s, command) }

  function EntrypointOf(lex: Lexicon, s: Surface): string -> bool { command => MatchesEntrypoint(lex, s, command) }

  function AcceptanceOf(lex: Lexicon, s: Surface): string -> bool { command => MatchesAcceptance(lex, s, command) }

  lemma CountOneMore(records: seq<Record>, test: Record -> bool, i: nat)
    requires i < |records|
    ensures Count(records[..i + 1], test) == Count(records[..i], test) + (if test(records[i]) then 1 else 0)
    ensures records[..|records|] == records
  {
    assert records[..i + 1][..i] == records[..i];
  }

  lemma {:induction false} CountPositive(records: seq<Record>, test: Record -> bool)
    ensures Count(records, test) > 0 <==> exists r :: r in records && test(r)
  {
    if records != [] {
      var n := |records| - 1;
      CountPositive(records[..n], test);
      assert records == records[..n] + [records[n]];
    }
  }

  lemma {:induction false} CountsCover(records: seq<Record>)
    ensures Count(records, OfClass(Behavioral)) + Count(records, OfClass(Weak))
        + Count(records, OfClass(Invalid)) == |records|
  {
    if records != [] { CountsCover(records[..|records| - 1]); }
  }

  method CollectCoverage(lex: Lexicon, s: Surface, records: seq<Record>) returns (c: Coverage)
    requires forall r :: r in records ==> r.targets == Targets(lex, r.command)
    ensures c.relevant == Count(records, Touches(RelevantTo(lex, s)))
    ensures c.entrypoint <==> Count(records, Touches(EntrypointOf(lex, s))) > 0
    ensures c.acceptance <==> Count(records, Touches(AcceptanceOf(lex, s))) > 0
  {
    var relevant, entrypointCovered, acceptanceCovered := 0, false, false;
    for i := 0 to |records|
      invariant relevant == Count(records[..i], Touches(RelevantTo(lex, s)))
      invariant entrypointCovered <==> Count(records[..i], Touches(EntrypointOf(lex, s))) > 0
      invariant acceptanceCovered <==> Count(records[..i], Touches(AcceptanceOf(lex, s))) > 0
    {
      CountOneMore(records, Touches(RelevantTo(lex, s)), i);
      CountOneMore(records, Touches(EntrypointOf(lex, s)), i);
      CountOneMore(records, Touches(AcceptanceOf(lex, s)), i);
      if records[i].class_.Behavioral? {
        var moduleMatch, entrypointMatch, acceptanceMatch := MatchCommand(lex, s, records[i]);
        if moduleMatch || entrypointMatch || acceptanceMatch { relevant := relevant + 1; }
        entrypointCovered := entrypointCovered || entrypointMatch;
        acceptanceCovered := acceptanceCovered || acceptanceMatch;
      }
    }
    assert records[..|records|] == records;
    c := Coverage(relevant, entrypointCovered, acceptanceCovered);
  }

  method MatchCommand(lex: Lexicon, s: Surface, r: Record)
    returns (moduleMatch: bool, entrypointMatch: bool, acceptanceMatch: bool)
    requires r.targets == Targets(lex, r.command)
    ensures moduleMatch == MatchesModule(lex, s, r.command)
    ensures entrypointMatch == MatchesEntrypoint(lex, s, r.command)
    ensures acceptanceMatch == MatchesAcceptance(lex, s, r.command)
  {
    var surface := TargetSurface(lex, r.targets);
    moduleMatch := Mentions(surface, ModuleTokens(lex, s));
    entrypointMatch := Mentions(surface, EntrypointTokens(lex, s));
    acceptanceMatch := Mentions(surface, AcceptanceTokens(lex, s));
  }

  /** One record per command, in order, as classified. */
  ghost predicate Classifies(lex: Lexicon, tests: seq<string>, records: seq<Record>)
    requires forall t :: t in tests ==> lex.shlexSplit(t).Some?
  {
    |records| == |tests| && forall i :: 0 <= i < |records| ==> records[i] == Classify(lex, tests[i])
  }

  method ClassifyAll(lex: Lexicon, tests: seq<string>)
    returns (records: seq<Record>, behavioral: nat, weak: nat, invalid: nat)
    requires forall t :: t in tests ==> lex.shlexSplit(t).Some?
    ensures Classifies(lex, tests, records)
    ensures behavioral == Count(records, OfClass(Behavioral))
    ensures weak == Count(records, OfClass(Weak))
    ensures invalid == Count(records, OfClass(Invalid))
  {
    records := seq(|tests|, i requires 0 <= i < |tests| => assert tests[i] in tests; Classify(lex, tests[i]));
    behavioral, weak, invalid := CountClasses(records);
  }

  method CountClasses(records: seq<Record>) returns (behavioral: nat, weak: nat, invalid: nat)
    ensures behavioral == Count(records, OfClass(Behavioral))
    ensures weak == Count(records, OfClass(Weak))
    ensures invalid == Count(records, OfClass(Invalid))
  {
    behavioral, weak, invalid := 0, 0, 0;
    for i := 0 to |records|
      invariant behavioral == Count(records[..i], OfClass(Behavioral))
      invariant weak == Count(records[..i], OfClass(Weak))
      invariant invalid == Count(records[..i], OfClass(Invalid))
    {
      CountOneMore(records, OfClass(Behavioral), i);
      CountOneMore(records, OfClass(Weak), i);
      CountOneMore(records, OfClass(Invalid), i);
      match records[i].class_
      case Behavioral => behavioral := behavioral + 1;
      case Weak => weak := weak + 1;
      case Invalid => invalid := invalid + 1;
    }
    assert records[..|records|] == records;
  }

  /** `_validate_behavioral_test_integrity`. */
  method ValidateIntegrity(lex: Lexicon, s: Surface) returns (p: PolicyCheck)
    requires forall t :: t in s.targetTests ==> lex.shlexSplit(t).Some?
    ensures Classifies(lex, s.targetTests, p.records)
    ensures p.behavioralCount == Count(p.records, OfClass(Behavioral))
    ensures p.weakCount == Count(p.records, OfClass(Weak))
    ensures p.invalidCount == Count(p.records, OfClass(Invalid))
    ensures p.relevantCount == Count(p.records, Touches(RelevantTo(lex, s)))
    ensures p.passed <==> Admissible(lex, s)
    ensures p.strictPassed <==> Strict(lex, s)
    ensures p.reasons == Shortfalls(p.behavioralCount, p.weakCount, p.invalidCount, p.relevantCount)
                         + (if p.passed && !p.strictPassed then [StrictCoverageMissing] else [])
    ensures p.reasons == [] <==> p.strictPassed
  {
    var records, behavioral, weak, invalid := ClassifyAll(lex, s.targetTests);
    var c := CollectCoverage(lex, s, records);
    var reasons := Shortfalls(behavioral, weak, invalid, c.relevant);
    var passed := reasons == [];
    var strictPassed := passed && c.entrypoint && c.acceptance;
    AdmissibleIff(lex, s, records);
    if passed { StrictIff(lex, s, records); }
    if passed && !strictPassed { reasons := reasons + [StrictCoverageMissing]; }
    p := PolicyCheck(records, behavioral, weak, invalid, c.relevant, c.entrypoint, c.acceptance, passed, strictPassed,
        reasons);
  }

  lemma AllBehavioralIff(lex: Lexicon, tests: seq<string>, records: seq<Record>)
    requires (forall t :: t in tests ==> lex.shlexSplit(t).Some?) && Classifies(lex, tests, records)
    ensures AllBehavioral(lex, tests) <==> Count(records, OfClass(Weak)) == 0 && Count(records, OfClass(Invalid)) == 0
  {
    CountPositive(records, OfClass(Weak));
    CountPositive(records, OfClass(Invalid));
    forall i | 0 <= i < |tests| ensures IsBehavioral(lex, tests[i]) <==> records[i].class_.Behavioral? {
      assert tests[i] in tests;
    }
    assert forall r :: r in records ==>
      (OfClass(Weak)(r) <==> r.class_ == Weak) && (OfClass(Invalid)(r) <==> r.class_ == Invalid);
    assert AllBehavioral(lex, tests) <==> forall r :: r in records ==> r.class_.Behavioral?;
  }

  /** When every record is behavioural, a test of commands finds one among the records exactly when it finds one
      declared. */
  lemma CommandsAmong(tests: seq<string>, records: seq<Record>, matches: string -> bool)
    requires forall r :: r in records ==> r.class_.Behavioral?
    requires forall t :: t in tests <==> exists r :: r in records && r.command == t
    ensures Count(records, Touches(matches)) > 0 <==> exists t :: t in tests && matches(t)
  {
    CountPositive(records, Touches(matches));
    if r :| r in records && Touches(matches)(r) { assert r.command in tests; }
    if t :| t in tests && matches(t) {
      var r :| r in records && r.command == t;
      assert Touches(matches)(r);
    }
  }

  /** The counts decide whether the declared tests are admissible. */
  lemma AdmissibleIff(lex: Lexicon, s: Surface, records: seq<Record>)
    requires (forall t :: t in s.targetTests ==> lex.shlexSplit(t).Some?) && Classifies(lex, s.targetTests, records)
    ensures Admissible(lex, s) <==>
      Shortfalls(Count(records, OfClass(Behavioral)), Count(records, OfClass(Weak)), Count(records, OfClass(Invalid)),
                 Count(records, Touches(RelevantTo(lex, s)))) == []
  {
    AllBehavioralIff(lex, s.targetTests, records);
    CountsCover(records);
    if AllBehavioral(lex, s.targetTests) {
      RecordsCoverTests(lex, s.targetTests, records);
      CommandsAmong(s.targetTests, records, RelevantTo(lex, s));
    }
  }

  lemma EntrypointTouched(lex: Lexicon, s: Surface, records: seq<Record>)
    requires forall r :: r in records ==> r.class_.Behavioral?
    requires forall t :: t in s.targetTests <==> exists r :: r in records && r.command == t
    ensures Count(records, Touches(EntrypointOf(lex, s))) > 0 <==>
            exists t :: t in s.targetTests && MatchesEntrypoint(lex, s, t)
  {
    CommandsAmong(s.targetTests, records, EntrypointOf(lex, s));
  }

  lemma AcceptanceTouched(lex: Lexicon, s: Surface, records: seq<Record>)
    requires forall r :: r in records ==> r.class_.Behavioral?
    requires forall t :: t in s.targetTests <==> exists r :: r in records && r.command == t
    ensures Count(records, Touches(AcceptanceOf(lex, s))) > 0 <==>
            exists t :: t in s.targetTests && MatchesAcceptance(lex, s, t)
  {
    CommandsAmong(s.targetTests, records, AcceptanceOf(lex, s));
  }

  /** So do the two coverage flags whether they are strict. */
  lemma StrictIff(lex: Lexicon, s: Surface, records: seq<Record>)
    requires (forall t :: t in s.targetTests ==> lex.shlexSplit(t).Some?) && Classifies(lex, s.targetTests, records)
    requires Admissible(lex, s)
    ensures Strict(lex, s) <==>
      Count(records, Touches(EntrypointOf(lex, s))) > 0 && Count(records, Touches(AcceptanceOf(lex, s))) > 0
  {
    RecordsCoverTests(lex, s.targetTests, records);
    EntrypointTouched(lex, s, records);
    AcceptanceTouched(lex, s, records);
  }

  /** When every test is behavioural, so is every record, and the records are of exactly the declared tests. */
  lemma RecordsCoverTests(lex: Lexicon, tests: seq<string>, records: seq<Record>)
    requires (forall t :: t in tests ==> lex.shlexSplit(t).Some?) && Classifies(lex, tests, records)
    requires AllBehavioral(lex, tests)
    ensures forall r :: r in records ==> r.class_.Behavioral?
    ensures forall t :: t in tests <==> exists r :: r in records && r.command == t
  {
    forall t ensures t in tests <==> exists r :: r in records && r.command == t {
      if t in tests {
        var i :| 0 <= i < |tests| && tests[i] == t;
        assert records[i].command == t;
      }
    }
    assert forall i :: 0 <= i < |records| ==> IsBehavioral(lex, tests[i]) && records[i].class_.Behavioral?;
  }

  // --------------------------------------------------------- interpreter pinning

  const PYTEST := "pytest"

  predicate ModuleInvocation(lex: Lexicon, tokens: seq<string>) {
    && |tokens| >= 3
    && (lex.baseName(tokens[0]) == "python" || lex.baseName(tokens[0]) == "python3")
    && tokens[1] == "-m" && tokens[2] == PYTEST
  }

  /** `_normalize_pytest_invocation` with the runner's interpreter `exe`. */
  function PinInterpreter(lex: Lexicon, exe: string, tokens: seq<string>): seq<string> {
    if tokens == [] then tokens
    else if tokens[0] == PYTEST then [exe, "-m", PYTEST] + tokens[1..]
    else if ModuleInvocation(lex, tokens) then [exe] + tokens[1..]
    else tokens
  }

  /** The arguments of a pytest invocation, None for any other command line. */
  function PytestArguments(lex: Lexicon, tokens: seq<string>): Option<seq<string>> {
    if tokens == [] then None
    else if tokens[0] == PYTEST then Some(tokens[1..])
    else if ModuleInvocation(lex, tokens) then Some(tokens[3..])
    else None
  }

  lemma SecondAndThird(exe: string, tokens: seq<string>)
    requires |tokens| >= 3
    ensures [exe] + tokens[1..] == [exe, tokens[1], tokens[2]] + tokens[3..]
  {
    assert tokens[1..] == [tokens[1], tokens[2]] + tokens[3..];
  }

  /** Every pytest invocation runs under the runner's interpreter with its own arguments; anything else is left
      alone. */
  lemma PinnedInvocation(lex: Lexicon, exe: string, tokens: seq<string>)
    ensures match PytestArguments(lex, tokens)
            case Some(args) => PinInterpreter(lex, exe, tokens) == [exe, "-m", PYTEST] + args
            case None => PinInterpreter(lex, exe, tokens) == tokens
  {
    if |tokens| >= 3 { SecondAndThird(exe, tokens); }
  }

  /** Pinning twice is pinning once, for every command, exactly when the interpreter is not itself called `pytest`. */
  lemma PinIdempotentIff(lex: Lexicon, exe: string)
    ensures exe != PYTEST <==>
            forall tokens :: PinInterpreter(lex, exe, PinInterpreter(lex, exe, tokens))
              == PinInterpreter(lex, exe, tokens)
  {
    if exe == PYTEST {
      var once := PinInterpreter(lex, exe, [PYTEST]);
      assert once == [PYTEST, "-m", PYTEST];
      assert |PinInterpreter(lex, exe, once)| == 5;
    }
  }
}
