/** The risk of a batch of changed paths, and how to split it (scripts/build_small_batch_risk_record.py). */
module RiskRecord {
  import opened Wrappers
  import opened Ordering
  import opened Text

  /** The surface classes; Unlisted is a name outside the listed ones. */
  datatype Surface =
    | ContractsSchemas | ContractsExamples | StandardsManifest | Runtime | Scripts | Tests
    | DocsReviews | DocsReviewActions | DocsGovernance | GeneratedArtifacts | GithubWorkflows
    | Dashboard | Other
    | Unlisted(name: string)

  function SurfaceClasses(): seq<Surface> {
    [
    ContractsSchemas, ContractsExamples, StandardsManifest, Runtime, Scripts, Tests, DocsReviews,
    DocsReviewActions, DocsGovernance, GeneratedArtifacts, GithubWorkflows, Dashboard, Other]
  }

  /** The listed classes but Other, in the order of their names. */
  function GovernedByName(): seq<Surface> {
    [
    ContractsExamples, ContractsSchemas, Dashboard, DocsGovernance, DocsReviewActions, DocsReviews,
    GeneratedArtifacts, GithubWorkflows, Runtime, Scripts, StandardsManifest, Tests]
  }

  predicate Known(c: Surface) { !c.Unlisted? }

  /** How one path is classified. */
  type Classifier = string -> Surface

  /** `classify_surface` */
  function ClassifySurface(path: string): Surface {
    if path == "" then Other
    else if StartsWith(path, "apps/dashboard-3ls/") || StartsWith(path, "artifacts/dashboard_metrics/")
            || StartsWith(path, "artifacts/dashboard_cases/") || StartsWith(path, "dashboard/") then Dashboard
    else if path == "apps/dashboard-3ls/app/page.tsx" then Dashboard
    else if path == "contracts/standards-manifest.json" then StandardsManifest
    else if StartsWith(path, "contracts/schemas/") then ContractsSchemas
    else if StartsWith(path, "contracts/examples/") then ContractsExamples
    else if StartsWith(path, "spectrum_systems/") then Runtime
    else if StartsWith(path, "scripts/") then Scripts
    else if StartsWith(path, "tests/") then Tests
    else if StartsWith(path, "docs/reviews/") then DocsReviews
    else if StartsWith(path, "docs/review-actions/") then DocsReviewActions
    else if StartsWith(path, "docs/governance/") then DocsGovernance
    else if StartsWith(path, ".github/workflows/") then GithubWorkflows
    else if StartsWith(path, "artifacts/tls/") || StartsWith(path, "artifacts/dashboard_")
            || StartsWith(path, "artifacts/system_dependency_priority_report.json")
            || StartsWith(path, "governance/reports/") || StartsWith(path, "ecosystem/")
            || StartsWith(path, "artifacts/") then GeneratedArtifacts
    else Other
  }

  ghost predicate NeverUnknown(classify: Classifier) { forall p :: Known(classify(p)) }

  lemma ClassifierNeverUnknown()
    ensures NeverUnknown(ClassifySurface)
  {
    forall p ensures Known(ClassifySurface(p)) {}
  }

  lemma LongerPrefix(p: string, prefix: string, more: string)
    ensures StartsWith(p, prefix + more) ==> StartsWith(p, prefix)
  {
    if StartsWith(p, prefix + more) { assert p[..|prefix|] == (prefix + more)[..|prefix|]; }
  }

  lemma FirstLetter(p: string, prefix: string)
    requires prefix != ""
    ensures StartsWith(p, prefix) || p == prefix ==> p != "" && p[0] == prefix[0]
  {
    if StartsWith(p, prefix) { assert p[..|prefix|][0] == p[0]; }
  }

  predicate UnderDashboard(p: string) {
    StartsWith(p, "apps/dashboard-3ls/") || StartsWith(p, "artifacts/dashboard_metrics/")
    || StartsWith(p, "artifacts/dashboard_cases/") || StartsWith(p, "dashboard/")
  }

  /** A path is a dashboard path exactly when it lies under a dashboard folder: the separate test for one page never
      decides. */
  lemma DashboardIff(p: string)
    ensures ClassifySurface(p) == Dashboard <==> UnderDashboard(p)
  {
    var page := "apps/dashboard-3ls/app/page.tsx";
    assert StartsWith(page, "apps/dashboard-3ls/");
  }

  predicate UnderGenerated(p: string) {
    StartsWith(p, "artifacts/") || StartsWith(p, "governance/reports/") || StartsWith(p, "ecosystem/")
  }

  lemma PriorityReport(p: string)
    ensures StartsWith(p, "artifacts/system_dependency_priority_report.json") ==> StartsWith(p, "artifacts/")
  {
    LongerPrefix(p, "artifacts/", "system_dependency_priority_report.json");
    assert "artifacts/" + "system_dependency_priority_report.json"
        == "artifacts/system_dependency_priority_report.json";
  }

  lemma GeneratedFolders(p: string)
    ensures StartsWith(p, "artifacts/tls/") ==> StartsWith(p, "artifacts/")
    ensures StartsWith(p, "artifacts/dashboard_") ==> StartsWith(p, "artifacts/")
  {
    LongerPrefix(p, "artifacts/", "tls/");
    LongerPrefix(p, "artifacts/", "dashboard_");
    assert "artifacts/" + "tls/" == "artifacts/tls/" && "artifacts/" + "dashboard_" == "artifacts/dashboard_";
  }

  /** No other listed folder starts with the letter of a folder of generated artifacts. */
  lemma GeneratedLetter(p: string)
    ensures UnderGenerated(p) ==> p != "" && (p[0] == 'a' || p[0] == 'g' || p[0] == 'e')
  {
    FirstLetter(p, "artifacts/");
    FirstLetter(p, "governance/reports/");
    FirstLetter(p, "ecosystem/");
  }

  predicate UnderOther(p: string) {
    p == "contracts/standards-manifest.json" || StartsWith(p, "contracts/schemas/")
      || StartsWith(p, "contracts/examples/")
    || StartsWith(p, "spectrum_systems/") || StartsWith(p, "scripts/") || StartsWith(p, "tests/")
       || StartsWith(p, "docs/reviews/")
    || StartsWith(p, "docs/review-actions/") || StartsWith(p, "docs/governance/") || StartsWith(p, ".github/workflows/")
  }

  lemma OtherLetter(p: string)
    ensures UnderOther(p) ==> p != "" && p[0] != 'a' && p[0] != 'g' && p[0] != 'e'
  {
    FirstLetter(p, "contracts/standards-manifest.json");
    FirstLetter(p, "contracts/schemas/");
    FirstLetter(p, "contracts/examples/");
    FirstLetter(p, "spectrum_systems/");
    FirstLetter(p, "scripts/");
    FirstLetter(p, "tests/");
    FirstLetter(p, "docs/reviews/");
    FirstLetter(p, "docs/review-actions/");
    FirstLetter(p, "docs/governance/");
    FirstLetter(p, ".github/workflows/");
  }

  /** A path is a generated artifact exactly when it lies under artifacts/, governance/reports/ or ecosystem/ and is no
      dashboard path. */
  lemma GeneratedIff(p: string)
    ensures ClassifySurface(p) == GeneratedArtifacts <==> UnderGenerated(p) && !UnderDashboard(p)
  {
    PriorityReport(p);
    GeneratedFolders(p);
    DashboardIff(p);
    GeneratedLetter(p);
    OtherLetter(p);
  }

  // ----------------------------------------------------------------------- grouping

  /** The class a path is filed under. */
  function FiledUnder(classify: Classifier, path: string): Surface {
    if Known(classify(path)) then classify(path) else Other
  }

  /** The paths filed under a class, in order. */
  function PathsIn(paths: seq<string>, classify: Classifier, c: Surface): seq<string> {
    if paths == [] then []
    else
      var p := paths[|paths| - 1];
      PathsIn(paths[..|paths| - 1], classify, c) + (if FiledUnder(classify, p) == c then [p] else [])
  }

  function ClassesOf(paths: seq<string>, classify: Classifier): set<Surface> {
    set p | p in paths :: FiledUnder(classify, p)
  }

  function Failed(paths: seq<string>, classify: Classifier): bool {
    exists p :: p in paths && !Known(classify(p))
  }

  /** The paths by class: a dictionary of the non-empty classes. */
  type Groups = map<Surface, seq<string>>

  function Get(groups: Groups, c: Surface): seq<string> { if c in groups then groups[c] else [] }

  ghost predicate Holds(groups: Groups, paths: seq<string>, classify: Classifier) {
    groups.Keys == ClassesOf(paths, classify) && forall c :: Get(groups, c) == PathsIn(paths, classify, c)
  }

  function Grouped(paths: seq<string>, classify: Classifier): (groups: Groups)
    ensures groups.Keys == ClassesOf(paths, classify)
  {
    map c | c in ClassesOf(paths, classify) :: PathsIn(paths, classify, c)
  }

  lemma {:induction false} NoClassNoPaths(paths: seq<string>, classify: Classifier, c: Surface)
    ensures PathsIn(paths, classify, c) == [] <==> c !in ClassesOf(paths, classify)
  {
    if paths != [] {
      NoClassNoPaths(paths[..|paths| - 1], classify, c);
      ClassesStep(paths, classify, |paths| - 1);
    }
  }

  lemma HoldsIsGrouped(groups: Groups, paths: seq<string>, classify: Classifier)
    ensures Holds(groups, paths, classify) <==> groups == Grouped(paths, classify)
  {
    forall c ensures Get(Grouped(paths, classify), c) == PathsIn(paths, classify, c) {
      NoClassNoPaths(paths, classify, c);
    }
    if Holds(groups, paths, classify) {
      forall c | c in groups ensures groups[c] == PathsIn(paths, classify, c) { assert Get(groups, c) == groups[c]; }
    }
  }

  lemma ClassesStep(paths: seq<string>, classify: Classifier, i: nat)
    requires i < |paths|
    ensures ClassesOf(paths[..i + 1], classify) == ClassesOf(paths[..i], classify) + {FiledUnder(classify, paths[i])}
    ensures Failed(paths[..i + 1], classify) <==> Failed(paths[..i], classify) || !Known(classify(paths[i]))
    ensures paths[..i + 1][..i] == paths[..i] && paths[..|paths|] == paths
  {
    assert paths[..i + 1] == paths[..i] + [paths[i]];
  }

  lemma PathsInStep(paths: seq<string>, classify: Classifier, p: string, c: Surface)
    ensures PathsIn(paths + [p], classify, c)
         == if FiledUnder(classify, p) == c then PathsIn(paths, classify, c) + [p] else PathsIn(paths, classify, c)
  {
    Snoc(paths, p);
    AppendEmpty(PathsIn(paths, classify, c));
  }

  lemma ClassesOfStep(paths: seq<string>, classify: Classifier, p: string)
    ensures ClassesOf(paths + [p], classify) == ClassesOf(paths, classify) + {FiledUnder(classify, p)}
  {
  }

  lemma HoldsStep(groups: Groups, paths: seq<string>, classify: Classifier, p: string)
    requires Holds(groups, paths, classify)
    ensures Holds(groups[FiledUnder(classify, p) := Get(groups, FiledUnder(classify, p)) + [p]], paths + [p], classify)
  {
    var at := FiledUnder(classify, p);
    ClassesOfStep(paths, classify, p);
    forall c ensures Get(groups[at := Get(groups, at) + [p]], c) == PathsIn(paths + [p], classify, c) {
      PathsInStep(paths, classify, p, c);
      assert Get(groups, c) == PathsIn(paths, classify, c);
    }
  }

  /** `_classify_all` */
  method ClassifyAll(paths: seq<string>, classify: Classifier) returns (groups: Groups, failed: bool)
    ensures groups == Grouped(paths, classify)
    ensures failed == Failed(paths, classify)
  {
    groups, failed := map[], false;
    for i := 0 to |paths|
      invariant Holds(groups, paths[..i], classify)
      invariant failed == Failed(paths[..i], classify)
    {
      ClassesStep(paths, classify, i);
      HoldsStep(groups, paths[..i], classify, paths[i]);
      Prefix(paths, i);
      var c := classify(paths[i]);
      if !Known(c) {
        failed := true;
        c := Other;
      }
      groups := groups[c := Get(groups, c) + [paths[i]]];
    }
    assert paths[..|paths|] == paths;
    HoldsIsGrouped(groups, paths, classify);
  }

  // --------------------------------------------------------------------------- risk

  datatype Level = Low | Medium | High | VeryHigh | Unknown

  datatype Code =
    | PathClassificationFailed | SchemaRuntimeGeneratedWorkflowCombination | ManyGovernedSurfaceClasses
    | MultipleGovernedSurfaceClasses | TwoGovernedSurfaceClasses | SingleClassHighFileCount | NoChangedPaths

  datatype Touched = Touched(schema: bool, runtime: bool, generated: bool, workflow: bool)

  predicate Risky(t: Touched) { t.schema && t.runtime && t.generated && t.workflow }

  /** `_compute_risk_level`: the level, from the dictionary of groups. */
  method ComputeRiskLevel(groups: Groups, failed: bool, t: Touched) returns (level: Level, codes: seq<Code>)
    ensures level == LevelOf(groups, failed, t) && codes == CodesOf(groups, failed, t)
  {
    codes := [];
    if failed { return Unknown, [PathClassificationFailed]; }
    var distinct := |groups.Keys|;
    if Risky(t) { codes := codes + [SchemaRuntimeGeneratedWorkflowCombination]; }
    if distinct >= 5 || Risky(t) {
      if distinct >= 5 { codes := codes + [ManyGovernedSurfaceClasses]; }
      return VeryHigh, codes;
    }
    if distinct >= 3 { return High, codes + [MultipleGovernedSurfaceClasses]; }
    if distinct == 2 { return Medium, codes + [TwoGovernedSurfaceClasses]; }
    if distinct == 1 {
      if Largest(groups) <= 3 { return Low, codes; }
      return Medium, codes + [SingleClassHighFileCount];
    }
    level, codes := Low, codes + [NoChangedPaths];
  }

  /** The number of paths of the only class, for a dictionary with one. */
  function Largest(groups: Groups): nat
    requires |groups.Keys| == 1
  {
    OnlyKey(groups.Keys);
    var c :| c in groups.Keys;
    |groups[c]|
  }

  lemma OnlyKey(s: set<Surface>)
    requires |s| == 1
    ensures exists c :: c in s
    ensures forall c, d :: c in s && d in s ==> c == d
  {
    var x :| x in s;
    assert |s - {x}| == 0;
    assert forall y :: y in s ==> y == x;
  }

  function LevelOf(groups: Groups, failed: bool, t: Touched): Level {
    var distinct := |groups.Keys|;
    if failed then Unknown
    else if distinct >= 5 || Risky(t) then VeryHigh
    else if distinct >= 3 then High
    else if distinct == 2 then Medium
    else if distinct == 1 && Largest(groups) > 3 then Medium
    else Low
  }

  function CodesOf(groups: Groups, failed: bool, t: Touched): seq<Code> {
    var distinct := |groups.Keys|;
    if failed then [PathClassificationFailed]
    else if distinct >= 5 || Risky(t) then
      (if Risky(t) then [SchemaRuntimeGeneratedWorkflowCombination] else [])
      + (if distinct >= 5 then [ManyGovernedSurfaceClasses] else [])
    else if distinct >= 3 then [MultipleGovernedSurfaceClasses]
    else if distinct == 2 then [TwoGovernedSurfaceClasses]
    else if distinct == 1 then (if Largest(groups) <= 3 then [] else [SingleClassHighFileCount])
    else [NoChangedPaths]
  }

  // -------------------------------------------------------------------------- split

  datatype Recommendation = HumanReviewRequired | KeepTogether | ConsiderSplit | SplitRecommended

  datatype Batch = Batch(name: Surface, paths: seq<string>)

  /** A finding of a level, with its evidence paths. */
  datatype Finding = Finding(level: Level, evidence: seq<string>)

  datatype Split = Split(recommendation: Recommendation, findings: seq<Finding>, batches: seq<Batch>)

  /** All the paths of the listed classes. */
  function Flattened(groups: Groups, classes: seq<Surface>): seq<string> {
    if classes == [] then []
    else Flattened(groups, classes[..|classes| - 1]) + Get(groups, classes[|classes| - 1])
  }

  /** A batch for each listed class with a path. */
  function BatchesOf(groups: Groups, classes: seq<Surface>): seq<Batch> {
    if classes == [] then []
    else
      var c := classes[|classes| - 1];
      BatchesOf(groups, classes[..|classes| - 1])
      + (if Get(groups, c) == [] then [] else [Batch(c, Sorted(Get(groups, c)))])
  }

  function SplitOf(level: Level, groups: Groups): Split {
    match level
    case Unknown => Split(HumanReviewRequired, [], [])
    case Low => Split(KeepTogether, [], [])
    case Medium => Split(KeepTogether, [], [])
    case High => Split(ConsiderSplit, [Finding(High, Sorted(Flattened(groups, SurfaceClasses())))],
        BatchesOf(groups, SurfaceClasses()))
    case VeryHigh =>
      Split(SplitRecommended, [Finding(VeryHigh, Sorted(Flattened(groups, SurfaceClasses())))],
        BatchesOf(groups, SurfaceClasses()))
  }

  method RecommendBatches(groups: Groups, classes: seq<Surface>) returns (batches: seq<Batch>)
    ensures batches == BatchesOf(groups, classes)
  {
    batches := [];
    for i := 0 to |classes|
      invariant batches == BatchesOf(groups, classes[..i])
    {
      assert classes[..i + 1][..i] == classes[..i];
      var paths := Sorted(Get(groups, classes[i]));
      SortedRearranges(Get(groups, classes[i]));
      if paths == [] { continue; }
      batches := batches + [Batch(classes[i], paths)];
    }
    assert classes[..|classes|] == classes;
  }

  /** `_compute_split_recommendation` */
  method ComputeSplitRecommendation(level: Level, groups: Groups) returns (split: Split)
    ensures split == SplitOf(level, groups)
  {
    if level == Unknown { return Split(HumanReviewRequired, [], []); }
    if level == Low || level == Medium { return Split(KeepTogether, [], []); }
    var findings := [Finding(level, Sorted(Flattened(groups, SurfaceClasses())))];
    var batches := RecommendBatches(groups, SurfaceClasses());
    if level == High { return Split(ConsiderSplit, findings, batches); }
    split := Split(SplitRecommended, findings, batches);
  }

  // ------------------------------------------------------------------------- record

  datatype Counts = Counts(
    schema: nat, example: nat, manifest: nat, runtime: nat, script: nat, test: nat, docs: nat, workflow: nat,
    dashboard: nat, generated: nat)

  datatype Record = Record(
    paths: seq<string>, governedClasses: seq<Surface>, governedCount: nat, counts: Counts,
    level: Level, codes: seq<Code>, split: Split)

  /** The changed paths once each; an entry that is not a string, or empty, is dropped. */
  function PathSet(changed: seq<Option<string>>): set<string> {
    set p | p in changed && p.Some? && p.value != "" :: p.value
  }

  function Size(groups: Groups, c: Surface): nat { |Get(groups, c)| }

  function CountsOf(groups: Groups): Counts {
    Counts(
      Size(groups, ContractsSchemas), Size(groups, ContractsExamples), Size(groups, StandardsManifest),
        Size(groups, Runtime),
      Size(groups, Scripts), Size(groups, Tests),
      Size(groups, DocsReviews) + Size(groups, DocsReviewActions) + Size(groups, DocsGovernance),
      Size(groups, GithubWorkflows), Size(groups, Dashboard), Size(groups, GeneratedArtifacts))
  }

  function TouchedBy(c: Counts): Touched { Touched(c.schema > 0, c.runtime > 0, c.generated > 0, c.workflow > 0) }

  function Present(groups: Groups, classes: seq<Surface>): seq<Surface> {
    if classes == [] then []
    else
      Present(groups, classes[..|classes| - 1])
        + (if classes[|classes| - 1] in groups then [classes[|classes| - 1]] else [])
  }

  function SumOf(groups: Groups, classes: seq<Surface>): nat {
    if classes == [] then 0 else SumOf(groups, classes[..|classes| - 1]) + Size(groups, classes[|classes| - 1])
  }

  function LevelFor(paths: seq<string>, classify: Classifier): Level {
    var groups := Grouped(paths, classify);
    LevelOf(groups, Failed(paths, classify), TouchedBy(CountsOf(groups)))
  }

  function RecordOf(paths: seq<string>, classify: Classifier): Record {
    var groups := Grouped(paths, classify);
    var counts := CountsOf(groups);
    var governed := Present(groups, GovernedByName());
    var level := LevelFor(paths, classify);
    Record(paths, governed, SumOf(groups, governed), counts,
           level, CodesOf(groups, Failed(paths, classify), TouchedBy(counts)), SplitOf(level, groups))
  }

  /** `build_small_batch_risk_record` */
  method BuildRecord(changed: seq<Option<string>>, classify: Classifier) returns (r: Record)
    ensures r == RecordOf(SortedStrings(PathSet(changed)), classify)
  {
    var paths := SortedStrings(PathSet(changed));
    var groups, failed := ClassifyAll(paths, classify);
    var counts := CountsOf(groups);
    var governed := Present(groups, GovernedByName());
    var level, codes := ComputeRiskLevel(groups, failed, TouchedBy(counts));
    var split := ComputeSplitRecommendation(level, groups);
    r := Record(paths, governed, SumOf(groups, governed), counts, level, codes, split);
  }

  // ------------------------------------------------------------ what the record says

  lemma GetGrouped(paths: seq<string>, classify: Classifier, c: Surface)
    ensures Get(Grouped(paths, classify), c) == PathsIn(paths, classify, c)
    ensures c in Grouped(paths, classify) <==> Size(Grouped(paths, classify), c) > 0
  {
    HoldsIsGrouped(Grouped(paths, classify), paths, classify);
    NoClassNoPaths(paths, classify, c);
  }

  lemma {:induction false} PathsInCount(paths: seq<string>, classify: Classifier, c: Surface, x: string)
    ensures multiset(PathsIn(paths, classify, c))[x] == if FiledUnder(classify, x) == c then multiset(paths)[x] else 0
  {
    if paths != [] {
      PathsInCount(paths[..|paths| - 1], classify, c, x);
      assert paths == paths[..|paths| - 1] + [paths[|paths| - 1]];
    }
  }

  lemma {:induction false} FlattenedCount(paths: seq<string>, classify: Classifier, classes: seq<Surface>, x: string)
    requires Distinct(classes)
    ensures multiset(Flattened(Grouped(paths, classify), classes))[x]
            == if FiledUnder(classify, x) in classes then multiset(paths)[x] else 0
  {
    if classes != [] {
      var n := |classes| - 1;
      var groups := Grouped(paths, classify);
      FlattenedCount(paths, classify, classes[..n], x);
      GetGrouped(paths, classify, classes[n]);
      PathsInCount(paths, classify, classes[n], x);
      assert classes == classes[..n] + [classes[n]] && classes[n] !in classes[..n];
      CountAppend(Flattened(groups, classes[..n]), Get(groups, classes[n]), x);
    }
  }

  /** The place of a listed class in the list of classes. */
  function Place(c: Surface): nat {
    match c
    case ContractsSchemas => 0
    case ContractsExamples => 1
    case StandardsManifest => 2
    case Runtime => 3
    case Scripts => 4
    case Tests => 5
    case DocsReviews => 6
    case DocsReviewActions => 7
    case DocsGovernance => 8
    case GeneratedArtifacts => 9
    case GithubWorkflows => 10
    case Dashboard => 11
    case Other => 12
    case Unlisted(_) => 13
  }

  lemma PlaceOf(i: nat)
    requires i < 13
    ensures Known(SurfaceClasses()[i]) && Place(SurfaceClasses()[i]) == i
  {
  }

  lemma ListedAt(c: Surface)
    requires Known(c)
    ensures SurfaceClasses()[Place(c)] == c
  {
  }

  lemma ListedClasses(c: Surface)
    ensures Distinct(SurfaceClasses()) && (Known(c) <==> c in SurfaceClasses())
  {
    var classes := SurfaceClasses();
    forall i | 0 <= i < |classes| ensures Known(classes[i]) && Place(classes[i]) == i { PlaceOf(i); }
    if Known(c) { ListedAt(c); }
  }

  /** Every path is filed under exactly one listed class. */
  lemma FlattenedIsAll(paths: seq<string>, classify: Classifier)
    ensures multiset(Flattened(Grouped(paths, classify), SurfaceClasses())) == multiset(paths)
  {
    ListedClasses(Other);
    forall x ensures multiset(Flattened(Grouped(paths, classify), SurfaceClasses()))[x] == multiset(paths)[x] {
      FlattenedCount(paths, classify, SurfaceClasses(), x);
      ListedClasses(FiledUnder(classify, x));
    }
  }

  function PathsOf(batches: seq<Batch>): seq<string> {
    if batches == [] then [] else PathsOf(batches[..|batches| - 1]) + batches[|batches| - 1].paths
  }

  lemma {:induction false} BatchesHold(groups: Groups, classes: seq<Surface>)
    ensures multiset(PathsOf(BatchesOf(groups, classes))) == multiset(Flattened(groups, classes))
  {
    if classes != [] {
      var n := |classes| - 1;
      BatchesHold(groups, classes[..n]);
      SortedRearranges(Get(groups, classes[n]));
      var before, all := BatchesOf(groups, classes[..n]), BatchesOf(groups, classes);
      if Get(groups, classes[n]) != [] { assert all[..|all| - 1] == before; } else { assert all == before; }
    }
  }

  /** The batch holds changed paths of its own class, at least one. */
  ghost predicate OfItsClass(paths: seq<string>, classify: Classifier, b: Batch) {
    b.paths != [] && forall p :: p in b.paths ==> p in paths && FiledUnder(classify, p) == b.name
  }

  lemma BatchIsOfItsClass(paths: seq<string>, classify: Classifier, c: Surface)
    requires PathsIn(paths, classify, c) != []
    ensures OfItsClass(paths, classify, Batch(c, Sorted(PathsIn(paths, classify, c))))
  {
    SortedRearranges(PathsIn(paths, classify, c));
    var sorted := Sorted(PathsIn(paths, classify, c));
    forall p | p in sorted ensures p in paths && FiledUnder(classify, p) == c {
      PathsInCount(paths, classify, c, p);
      assert p in multiset(sorted);
      assert p in multiset(paths);
    }
  }

  ghost predicate SplitsByClass(batches: seq<Batch>, paths: seq<string>, classify: Classifier) {
    forall k :: 0 <= k < |batches| ==> OfItsClass(paths, classify, batches[k])
  }

  lemma {:induction false} BatchesAreOfTheirClass(paths: seq<string>, classify: Classifier, classes: seq<Surface>)
    ensures SplitsByClass(BatchesOf(Grouped(paths, classify), classes), paths, classify)
  {
    if classes != [] {
      var c := classes[|classes| - 1];
      BatchesAreOfTheirClass(paths, classify, classes[..|classes| - 1]);
      GetGrouped(paths, classify, c);
      if PathsIn(paths, classify, c) != [] { BatchIsOfItsClass(paths, classify, c); }
    }
  }

  /** The batches hold every path exactly once, each in a non-empty batch of its class; the evidence is the paths. */
  ghost predicate Partitions(split: Split, paths: seq<string>, classify: Classifier, level: Level) {
    && multiset(PathsOf(split.batches)) == multiset(paths)
    && SplitsByClass(split.batches, paths, classify)
    && split.findings == [Finding(level, paths)]
  }

  lemma SplitPartitions(paths: seq<string>, classify: Classifier, level: Level)
    requires Ascending(paths, StrLeq) && (level == High || level == VeryHigh)
    ensures Partitions(SplitOf(level, Grouped(paths, classify)), paths, classify, level)
  {
    FlattenedIsAll(paths, classify);
    BatchesHold(Grouped(paths, classify), SurfaceClasses());
    EvidenceIsPaths(paths, classify);
    BatchesAreOfTheirClass(paths, classify, SurfaceClasses());
  }

  lemma SplitIsEmpty(level: Level, groups: Groups)
    requires level != High && level != VeryHigh
    ensures SplitOf(level, groups).batches == [] && SplitOf(level, groups).findings == []
  {
  }

  lemma RecordSplit(paths: seq<string>, classify: Classifier)
    ensures var r := RecordOf(paths, classify);
            r.level == LevelFor(paths, classify) && r.split == SplitOf(r.level, Grouped(paths, classify))
  {
  }

  /** At high and very high risk the recommended batches hold every changed path exactly once, each in a non-empty batch
      of its own class; the evidence is the list of changed paths; at any other level there is neither. */
  lemma BatchesPartition(paths: seq<string>, classify: Classifier)
    requires Ascending(paths, StrLeq)
    ensures var r := RecordOf(paths, classify);
            if r.level == High || r.level == VeryHigh then Partitions(r.split, paths, classify, r.level)
            else r.split.batches == [] && r.split.findings == []
  {
    RecordSplit(paths, classify);
    var level := LevelFor(paths, classify);
    if level == High || level == VeryHigh {
      SplitPartitions(paths, classify, level);
    } else {
      SplitIsEmpty(level, Grouped(paths, classify));
    }
  }

  lemma EvidenceIsPaths(paths: seq<string>, classify: Classifier)
    requires Ascending(paths, StrLeq)
    ensures Sorted(Flattened(Grouped(paths, classify), SurfaceClasses())) == paths
  {
    FlattenedIsAll(paths, classify);
    SortedRearranges(Flattened(Grouped(paths, classify), SurfaceClasses()));
    StrOrder();
    SortedUnique(Sorted(Flattened(Grouped(paths, classify), SurfaceClasses())), paths, StrLeq);
  }

  // ------------------------------------------------------------------------- counts

  function TotalOf(c: Counts): nat {
    c.schema + c.example + c.manifest + c.runtime + c.script + c.test + c.docs + c.workflow + c.dashboard + c.generated
  }

  lemma {:induction false} SumOfPresent(groups: Groups, classes: seq<Surface>)
    ensures SumOf(groups, Present(groups, classes)) == SumOf(groups, classes)
  {
    if classes != [] {
      var n := |classes| - 1;
      SumOfPresent(groups, classes[..n]);
      var before, all := Present(groups, classes[..n]), Present(groups, classes);
      if classes[n] in groups {
        assert all == before + [classes[n]] && all[..|all| - 1] == before;
      } else {
        assert all == before;
      }
    }
  }

  lemma SumStep(groups: Groups, classes: seq<Surface>, k: nat)
    requires k < |classes|
    ensures SumOf(groups, classes[..k + 1]) == SumOf(groups, classes[..k]) + Size(groups, classes[k])
    ensures classes[..|classes|] == classes
  {
    assert classes[..k + 1][..k] == classes[..k];
  }

  function SumOf6(groups: Groups, classes: seq<Surface>, k: nat): nat
    requires k + 6 <= |classes|
  {
    Size(groups, classes[k]) + Size(groups, classes[k + 1]) + Size(groups, classes[k + 2])
    + Size(groups, classes[k + 3]) + Size(groups, classes[k + 4]) + Size(groups, classes[k + 5])
  }

  lemma SumSteps(groups: Groups, classes: seq<Surface>, k: nat)
    requires k + 6 <= |classes|
    ensures SumOf(groups, classes[..k + 6]) == SumOf(groups, classes[..k]) + SumOf6(groups, classes, k)
  {
    SumStep(groups, classes, k);
    SumStep(groups, classes, k + 1);
    SumStep(groups, classes, k + 2);
    SumStep(groups, classes, k + 3);
    SumStep(groups, classes, k + 4);
    SumStep(groups, classes, k + 5);
  }

  lemma SumOfTwelve(groups: Groups, classes: seq<Surface>)
    requires |classes| >= 12
    ensures SumOf(groups, classes[..12]) == SumOf6(groups, classes, 0) + SumOf6(groups, classes, 6)
  {
    SumSteps(groups, classes, 0);
    SumSteps(groups, classes, 6);
  }

  lemma SumOfGoverned(groups: Groups)
    ensures SumOf(groups, GovernedByName()) == TotalOf(CountsOf(groups))
  {
    SumOfTwelve(groups, GovernedByName());
    assert GovernedByName()[..12] == GovernedByName();
  }

  lemma SumOfAll(groups: Groups)
    ensures SumOf(groups, SurfaceClasses()) == TotalOf(CountsOf(groups)) + Size(groups, Other)
  {
    SumOfTwelve(groups, SurfaceClasses());
    SumStep(groups, SurfaceClasses(), 12);
  }

  lemma {:induction false} FlattenedLength(groups: Groups, classes: seq<Surface>)
    ensures |Flattened(groups, classes)| == SumOf(groups, classes)
  {
    if classes != [] { FlattenedLength(groups, classes[..|classes| - 1]); }
  }

  /** The per-surface counts sum to the governed count, which with the paths of no listed surface makes up all of
      them. */
  lemma CountsConserve(paths: seq<string>, classify: Classifier)
    ensures RecordOf(paths, classify).governedCount == TotalOf(RecordOf(paths, classify).counts)
    ensures RecordOf(paths, classify).governedCount + |PathsIn(paths, classify, Other)| == |paths|
  {
    var groups := Grouped(paths, classify);
    SumOfPresent(groups, GovernedByName());
    SumOfGoverned(groups);
    SumOfAll(groups);
    FlattenedLength(groups, SurfaceClasses());
    FlattenedIsAll(paths, classify);
    SameMultisetSameLength(Flattened(groups, SurfaceClasses()), paths);
    GetGrouped(paths, classify, Other);
  }

  // --------------------------------------------------------------------- what risk is

  /** The risk of a number of paths in a set of classes. */
  function RiskOf(classes: set<Surface>, n: nat): Level {
    if |classes| >= 5 || {ContractsSchemas, Runtime, GeneratedArtifacts, GithubWorkflows} <= classes then VeryHigh
    else if |classes| >= 3 then High
    else if |classes| == 2 || (|classes| == 1 && n > 3) then Medium
    else Low
  }

  lemma {:induction false} OneClass(paths: seq<string>, classify: Classifier, c: Surface)
    requires forall p :: p in paths ==> FiledUnder(classify, p) == c
    ensures PathsIn(paths, classify, c) == paths
  {
    if paths != [] {
      var init, last := paths[..|paths| - 1], paths[|paths| - 1];
      OneClass(init, classify, c);
      assert paths == init + [last];
    }
  }

  lemma LargestIsAll(paths: seq<string>, classify: Classifier)
    requires |ClassesOf(paths, classify)| == 1
    ensures Largest(Grouped(paths, classify)) == |paths|
  {
    var classes := ClassesOf(paths, classify);
    OnlyKey(classes);
    var c :| c in classes;
    assert forall p :: p in paths ==> FiledUnder(classify, p) in classes;
    OneClass(paths, classify, c);
    assert Grouped(paths, classify)[c] == paths;
  }

  lemma TouchedIff(paths: seq<string>, classify: Classifier)
    ensures Risky(TouchedBy(CountsOf(Grouped(paths, classify)))) <==>
            {ContractsSchemas, Runtime, GeneratedArtifacts, GithubWorkflows} <= ClassesOf(paths, classify)
  {
    GetGrouped(paths, classify, ContractsSchemas);
    GetGrouped(paths, classify, Runtime);
    GetGrouped(paths, classify, GeneratedArtifacts);
    GetGrouped(paths, classify, GithubWorkflows);
  }

  lemma LevelOfGrouped(paths: seq<string>, classify: Classifier)
    ensures LevelOf(Grouped(paths, classify), false, TouchedBy(CountsOf(Grouped(paths, classify))))
            == RiskOf(ClassesOf(paths, classify), |paths|)
  {
    TouchedIff(paths, classify);
    if |ClassesOf(paths, classify)| == 1 { LargestIsAll(paths, classify); }
    LevelIsRiskOf(Grouped(paths, classify), TouchedBy(CountsOf(Grouped(paths, classify))), |paths|);
  }

  lemma LevelIsRiskOf(groups: Groups, t: Touched, n: nat)
    requires Risky(t) <==> {ContractsSchemas, Runtime, GeneratedArtifacts, GithubWorkflows} <= groups.Keys
    requires |groups.Keys| == 1 ==> Largest(groups) == n
    ensures LevelOf(groups, false, t) == RiskOf(groups.Keys, n)
  {
  }

  lemma NoneFails(paths: seq<string>, classify: Classifier)
    requires NeverUnknown(classify)
    ensures !Failed(paths, classify)
  {
  }

  /** With a classifier that only yields listed classes, as the shipped one does, the level is that of the set of
      classes touched and the number of paths, and so never Unknown. */
  lemma LevelIsRisk(paths: seq<string>, classify: Classifier)
    requires NeverUnknown(classify)
    ensures LevelFor(paths, classify) == RiskOf(ClassesOf(paths, classify), |paths|) != Unknown
  {
    LevelOfGrouped(paths, classify);
    NoneFails(paths, classify);
  }

  /** No record of the shipped classifier asks for human review. */
  lemma ReviewUnreachable(paths: seq<string>)
    ensures RecordOf(paths, ClassifySurface).split.recommendation != HumanReviewRequired
  {
    ClassifierNeverUnknown();
    LevelIsRisk(paths, ClassifySurface);
  }

  function Rank(l: Level): nat {
    match l case Low => 0 case Medium => 1 case High => 2 case VeryHigh => 3 case Unknown => 4
  }

  lemma {:induction false} SmallerSet<T>(a: set<T>, b: set<T>)
    requires a <= b
    ensures |a| <= |b|
  {
    assert b == a + (b - a);
  }

  lemma RiskGrows(a: set<Surface>, b: set<Surface>, m: nat, n: nat)
    requires a <= b && m <= n && (b == {} ==> n == 0)
    ensures Rank(RiskOf(a, m)) <= Rank(RiskOf(b, n))
  {
    SmallerSet(a, b);
  }

  /** Changing further paths never lowers the risk. */
  lemma RiskIsMonotone(some: seq<Option<string>>, more: seq<Option<string>>, classify: Classifier)
    requires NeverUnknown(classify)
    requires forall p :: p in some ==> p in more
    ensures Rank(LevelFor(SortedStrings(PathSet(some)), classify))
        <= Rank(LevelFor(SortedStrings(PathSet(more)), classify))
  {
    var a, b := SortedStrings(PathSet(some)), SortedStrings(PathSet(more));
    SortedStringsLists(PathSet(some));
    SortedStringsLists(PathSet(more));
    assert PathSet(some) <= PathSet(more);
    SmallerSet(PathSet(some), PathSet(more));
    LevelIsRisk(a, classify);
    LevelIsRisk(b, classify);
    if |b| > 0 { assert FiledUnder(classify, b[0]) in ClassesOf(b, classify); }
    RiskGrows(ClassesOf(a, classify), ClassesOf(b, classify), |a|, |b|);
  }

  // ---------------------------------------------- what "governed" means in the reasons

  lemma {:induction false} PresentElements(groups: Groups, classes: seq<Surface>)
    requires Distinct(classes)
    ensures Distinct(Present(groups, classes))
    ensures forall c :: c in Present(groups, classes) <==> c in classes && c in groups
  {
    if classes != [] {
      var n := |classes| - 1;
      PresentElements(groups, classes[..n]);
      assert classes == classes[..n] + [classes[n]];
    }
  }

  lemma {:induction false} DistinctSize(s: seq<Surface>)
    requires Distinct(s)
    ensures |SetOf(s)| == |s|
  {
    if s != [] {
      DistinctSize(s[..|s| - 1]);
      assert SetOf(s) == SetOf(s[..|s| - 1]) + {s[|s| - 1]};
    }
  }

  /** The place of a governed class in the order of names. */
  function GovernedPlace(c: Surface): nat {
    match c
    case ContractsExamples => 0
    case ContractsSchemas => 1
    case Dashboard => 2
    case DocsGovernance => 3
    case DocsReviewActions => 4
    case DocsReviews => 5
    case GeneratedArtifacts => 6
    case GithubWorkflows => 7
    case Runtime => 8
    case Scripts => 9
    case StandardsManifest => 10
    case Tests => 11
    case _ => 12
  }

  lemma GovernedPlaceOf(i: nat)
    requires i < 12
    ensures Known(GovernedByName()[i]) && GovernedByName()[i] != Other && GovernedPlace(GovernedByName()[i]) == i
  {
  }

  lemma GovernedAt(c: Surface)
    requires Known(c) && c != Other
    ensures GovernedByName()[GovernedPlace(c)] == c
  {
  }

  lemma GovernedClasses(c: Surface)
    ensures Distinct(GovernedByName()) && (c in GovernedByName() <==> Known(c) && c != Other)
  {
    var classes := GovernedByName();
    forall i | 0 <= i < |classes| ensures Known(classes[i]) && classes[i] != Other && GovernedPlace(classes[i]) == i {
      GovernedPlaceOf(i);
    }
    if Known(c) && c != Other { GovernedAt(c); }
  }

  lemma GovernedSet(groups: Groups)
    requires forall c :: c in groups ==> Known(c)
    ensures SetOf(Present(groups, GovernedByName())) == groups.Keys - {Other}
    ensures |Present(groups, GovernedByName())| == |groups.Keys - {Other}|
  {
    var present := Present(groups, GovernedByName());
    GovernedClasses(Other);
    PresentElements(groups, GovernedByName());
    DistinctSize(present);
    forall c ensures c in SetOf(present) <==> c in groups.Keys - {Other} { GovernedClasses(c); }
  }

  lemma GovernedCount(paths: seq<string>, classify: Classifier)
    ensures |Present(Grouped(paths, classify), GovernedByName())|
         == |ClassesOf(paths, classify)| - (if Other in ClassesOf(paths, classify) then 1 else 0)
  {
    GovernedSet(Grouped(paths, classify));
  }

  /** The record lists one governed class fewer than the risk level counts exactly when some path is of no listed
      surface. So a level or reason that speaks of k or more governed classes is right unless there are exactly k with
      that one. */
  lemma GovernedClassesIff(paths: seq<string>, classify: Classifier, k: nat)
    ensures var classes := ClassesOf(paths, classify);
            var governed := |RecordOf(paths, classify).governedClasses|;
            && governed == |classes| - (if Other in classes then 1 else 0)
            && (|classes| >= k ==> (governed >= k <==> !(|classes| == k && Other in classes)))
  {
    GovernedCount(paths, classify);
  }
}
