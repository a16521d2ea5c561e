# Governance control plane: a verified model

The repository is a governance control plane: scripts that realize roadmap steps, publish dashboard artifacts,
turn test evidence into readiness verdicts, scan documents for authority leaks, and derive views (graphs, indexes,
rankings, risk records) that must agree with each other. This project models the scripts that hold state, fold over
unbounded inputs, or feed one another, and proves what they promise over every input, every run and every sequence of runs.

Code that works step by step is a method, or a class where it updates fields, proved equal to a specification function;
the properties are lemmas about those functions. Code made of expressions is functions.

| module | models |
|---|---|
| RealizationRuntime, BehavioralProof, RoadmapRunner, RoadmapSafety, RoadmapVerdict | the roadmap realization runner, its six gates, its contract directory and its verdict |
| PublishLoop, PublishSafety, SnapshotClock | the dashboard publish loop over a file system, and the snapshot's timestamp rule |
| RuntimeBudget, ShardReadiness, Precheck | PR test evidence: budget, shard-first readiness, the precheck's composition and rollup |
| CanonicalForm, AuthorityDetectors | the freshness normaliser, and the two detectors on JSON trees |
| DependencyGraph, SourceIndexes | the ecosystem graph, the obligation index and the component map |
| RegistryContract, RankingReport, MaturityReport, RankMaturityAlignment | the D3L chain from one registry contract |
| WorkItems, RiskRecord, StrategyCompliance | work items, the small-batch risk record, the markdown table scanner and the roadmap output contract |
| Ordering, Text, Json, Wrappers | stable sorts and set listings, string operations, JSON trees, option and result types |

## What the proofs found

- Runner, no rollback: one critical failure empties the reported passes and updates (lines 634-641), but the files written for
  the steps that passed stay written. `RoadmapSafety.StoreAfterInvocation` says what is on disk,
  `RoadmapVerdict.NothingWrittenIff` on which inputs nothing was written, and `RoadmapSafety.WipedReportLeavesWrites` gives a
  family of inputs on which report and disk part.
- Runner, realization is once only: the file of a passed step is afterwards refused as forged, so a later invocation that
  names the step cannot pass (`RoadmapSafety.RealizedStepsAreRejected`). As a consequence a step passes only together with
  its dependencies outside the baseline (`RoadmapSafety.PassNeedsDependenciesInInvocation`).
- Runner, code and comment disagree: the comment at line 611 asks for a separate invocation before `verified`, while lines 617-627
  promote in the same one. The model follows the code. The else branch of line 632 never runs, and the dependency
  condition of line 635 never wipes a report the critical flags would not (`RoadmapSafety.WipeIffSomeStepFailed`).
- Runner, pinning the interpreter is idempotent unless the interpreter is itself called `pytest` (`BehavioralProof.PinIdempotentIff`).
- Publish loop: the manifest records the hash of the version it replaces. The two versions always differ, so its entry for
  itself is wrong exactly when they hash differently (`PublishSafety.ManifestSelfRecord`); every other entry is right.
- Budget builder: the documented fallback scope `broad_pytest` cannot be emitted, since every broad target is already
  detected as the full suite (`RuntimeBudget.ScopeFollowsObservation`).
- Readiness builder: a failed required shard without an artifact ref, or one with a status outside the handled values, enters
  neither the missing nor the failed list, and `shard_first` can still be reported (`ShardReadiness.FailedShardOverlooked`);
  `ShardReadiness.ShardFirstIsSoundIff` is the exact condition.
- Detectors: they look up different paths exactly when a path, once made relative to the repository root, starts with that
  root again (`AuthorityDetectors.SamePathIff`), and then the scopes can differ (`AuthorityDetectors.ScopesDiffer`). Field
  overrides keep the vocabulary scanner's silence meaningful under exact conditions (`AuthorityDetectors.OutcomeCoveredIff`,
  `AuthorityDetectors.CertificationCoveredIff`).
- Dependency graph: a `depends_on` edge may end at a contract that is not a node (`DependencyGraph.GraphClosedIff`).
- Registry contract: the rule it carries, no future or merged id in a universe, is not enforced; it holds exactly when the
  registry's lists share no id (`RegistryContract.UniverseRuleIff`).
- Ranking report: `full` lists a system once unless the universe repeats one that the priority artifact leaves unranked
  (`RankingReport.FullCoversUniverse`).
- Risk record: a path of no listed surface counts as a surface class in the risk level but not among the governed
  classes (`RiskRecord.GovernedClassesIff`).
- Strategy check: an existing but empty roadmap file passes (`StrategyCompliance.ContractMetIff`).

## Model

| member | source | states |
|---|---|---|
| RealizationRuntime.DependenciesValidIff | spectrum_systems/modules/runtime/roadmap_realization_runtime.py:31-52 | the dependency check returns exactly when the step was attempted and every dependency has a ready status and, if attempted, was attempted earlier |
| RealizationRuntime.NextStatusIsGuarded | spectrum_systems/modules/runtime/roadmap_realization_runtime.py:55-86 | one transition never moves back, reaches a ready status only through the five runtime gates, and `verified` only from `runtime_realized` with the verification gate |
| BehavioralProof.ClassifyAll | scripts/roadmap_realization_runner.py:335-339 | one record per command, in order, and the number of records of each class |
| BehavioralProof.CollectCoverage | scripts/roadmap_realization_runner.py:341-359 | the number of relevant behavioural commands, and whether one touches the entrypoints and one the acceptance checks |
| BehavioralProof.ValidateIntegrity | scripts/roadmap_realization_runner.py:335-388 | passed exactly when tests are declared, all behavioural and one relevant; strict exactly when entrypoints and acceptance checks are each touched as well; the four counts and the list of failure reasons |
| BehavioralProof.PinnedInvocation | scripts/roadmap_realization_runner.py:391-411 | a pytest invocation runs under the runner's interpreter with its own arguments; any other command is untouched |
| BehavioralProof.PinIdempotentIff | scripts/roadmap_realization_runner.py:391-411 | pinning twice is pinning once for every command exactly when the interpreter is not called `pytest` |
| RoadmapRunner.ValidateOwnership | scripts/roadmap_realization_runner.py:448-479 | the loops decide ownership as specified: every module and every test token inside the owner's prefixes; a test command shlex refuses raises |
| RoadmapRunner.RunBehavioralTests | scripts/roadmap_realization_runner.py:414-435 | every command runs, in order, pinned to the interpreter, with its return code |
| RoadmapRunner.ProveBehavior | scripts/roadmap_realization_runner.py:576-588 | the tests run are the declared ones exactly when the policy admits them; the gate holds when all return 0; verification needs strict coverage |
| RoadmapRunner.Attempt | scripts/roadmap_realization_runner.py:543-603 | one pass through the gates comes to the specified outcome, including where the source raises |
| RoadmapRunner.CrashEndsRun | scripts/roadmap_realization_runner.py:536-632 | once a step raises, the rest of the invocation changes nothing |
| RoadmapRunner.Runner.LoadContracts | scripts/roadmap_realization_runner.py:490-512 | the loaded contracts and the load failures, step by step |
| RoadmapRunner.Runner.RecordPass | scripts/roadmap_realization_runner.py:605-630 | files, statuses, updates and passes after a step that passes |
| RoadmapRunner.Runner.AttemptAll | scripts/roadmap_realization_runner.py:536-632 | the loop over the steps is the fold of single steps |
| RoadmapRunner.Runner.RealizeSteps | scripts/roadmap_realization_runner.py:482-664 | report and contract directory are those of the specified invocation |
| RoadmapSafety.StepPassesIff | scripts/roadmap_realization_runner.py:543-603 | a step that has not started passes exactly when ownership, dependencies, forbidden patterns, entrypoints and admissible tests returning 0 all hold, and reaches the status its evidence warrants |
| RoadmapVerdict.InvocationPassesIff | scripts/roadmap_realization_runner.py:482-664 | for any distinct steps, a pass is reported exactly when the list is non-empty and each step loads and meets the six gates once the steps before it have been attempted and reached their status |
| RoadmapVerdict.NothingWrittenIff | scripts/roadmap_realization_runner.py:605-641 | the contract directory is left as it was exactly when the gates, judged on the start statuses, hold of no loaded step, those behind a raising step aside |
| RoadmapVerdict.RaisedIff | scripts/roadmap_realization_runner.py:543-603 | a step that has not started raises exactly when shlex refuses a test command or, past ownership and dependencies, a file to scan is missing |
| RoadmapSafety.EvaluateSound | scripts/roadmap_realization_runner.py:543-603 | a failure always has a critical category; a pass carries its full evidence, no earlier failure and valid dependencies |
| RoadmapSafety.PassedStepsAreProven | scripts/roadmap_realization_runner.py:536-632 | over any steps, each step listed as passed was proven: every declared test behavioural, run in order and returned 0, one of them relevant |
| RoadmapSafety.StepsArePlaced | scripts/roadmap_realization_runner.py:536-632 | unless a step raises, every loaded step is in exactly one of passed and failed, and a failed one is flagged critical |
| RoadmapSafety.InvocationPlacesEveryStep | scripts/roadmap_realization_runner.py:482-632 | over the whole invocation every requested step is in exactly one list, and critical flags single out the failed ones |
| RoadmapSafety.UpdatesReplay | scripts/roadmap_realization_runner.py:605-630 | replaying the status updates in order, every `from` matching, leads from the start statuses to the end statuses |
| RoadmapSafety.DependenciesComeFirst | scripts/roadmap_realization_runner.py:543-560 | every dependency of a passed step is baseline or passed earlier in the same invocation |
| RoadmapSafety.WipeIffSomeStepFailed | scripts/roadmap_realization_runner.py:634-641 | the report is wiped exactly when some step failed |
| RoadmapSafety.VerdictIsAllOrNothing | scripts/roadmap_realization_runner.py:634-664 | pass exactly when the requested list is non-empty and all of it passed; then passed is that set; otherwise no pass and no update is reported |
| RoadmapSafety.PassIsEarned | scripts/roadmap_realization_runner.py:482-664 | on a pass every requested contract loaded, is proven, and its file holds the status its evidence warrants |
| RoadmapSafety.ReportedUpdatesReplay | scripts/roadmap_realization_runner.py:605-664 | the updates of a passing report replay to the statuses now on file |
| RoadmapSafety.StoreHoldsPassedSteps | scripts/roadmap_realization_runner.py:605-627 | the directory after the loop is the old one with exactly the passed steps overwritten |
| RoadmapSafety.StoreAfterInvocation | scripts/roadmap_realization_runner.py:605-641 | after the whole invocation, whatever the verdict and also when a step raised, the directory is overlaid by exactly the steps that passed the loop |
| RoadmapSafety.WipedReportLeavesWrites | scripts/roadmap_realization_runner.py:605-641 | a passing step requested beside a missing one is still written, while the report fails and lists nothing |
| RoadmapSafety.RealizedStepsAreRejected | scripts/roadmap_realization_runner.py:501-512 | after an invocation no later one that names a step it passed can pass, while that file stands |
| RoadmapSafety.PassNeedsDependenciesInInvocation | scripts/roadmap_realization_runner.py:482-664 | a passing step's dependency outside the baseline is requested in, and passes in, the same invocation |
| PublishLoop.RequiredSourcesFit | scripts/dashboard_refresh_publish_loop.py:29-58 | no required source is named like a generated file, nor, in the run directory, like a run record |
| PublishLoop.Publisher.CopySources | scripts/dashboard_refresh_publish_loop.py:153-159 | the stage holds exactly the sources that exist; the others are missing |
| PublishLoop.Publisher.HashFiles | scripts/dashboard_refresh_publish_loop.py:337-345 | a hash for each named file that is staged |
| PublishLoop.Publisher.MoveStage | scripts/dashboard_refresh_publish_loop.py:378-380 | after the moves the public directory is overlaid by the stage, which is empty |
| PublishLoop.Publisher.StageRecords | scripts/dashboard_refresh_publish_loop.py:283-373 | decision, stage and repository after the records and the two manifests |
| PublishLoop.Publisher.RunLoop | scripts/dashboard_refresh_publish_loop.py:116-381 | one run ends, and leaves the disk, as specified, including where it raises |
| PublishSafety.AllowedIff | scripts/dashboard_refresh_publish_loop.py:254-285 | a run publishes exactly when it opens, the snapshot is fresh, no source is missing or dropped, the manifest is not malformed and the budget does not freeze |
| PublishSafety.AllowedRunIsCoherent | scripts/dashboard_refresh_publish_loop.py:197-381 | an allowed run publishes every required file and nothing else, sources as in the repository, manifest and audit hashes those of the published content, one run id throughout |
| PublishSafety.ManifestSelfRecord | scripts/dashboard_refresh_publish_loop.py:333-350 | the manifest's entry for itself is the hash of the version it replaced, which differs from the published one; the entry is wrong exactly when the two hash differently |
| PublishSafety.PublicEffect | scripts/dashboard_refresh_publish_loop.py:375-381 | a run changes the public directory only by adding what it publishes, and only when allowed |
| PublishSafety.SourcesUnchanged | scripts/dashboard_refresh_publish_loop.py:153-373 | a run writes nothing in the repository but its own run records |
| PublishSafety.PublicIsOverlay | scripts/dashboard_refresh_publish_loop.py:116-381 | after any sequence of runs and outside edits, public is its initial content overlaid in order by exactly the allowed runs' file sets |
| PublishSafety.HistoryIsCoherent | scripts/dashboard_refresh_publish_loop.py:116-381 | each of those file sets is a coherent publication |
| PublishSafety.PublicIsLastPublication | scripts/dashboard_refresh_publish_loop.py:116-381 | once a run has published, public holds the last publication whole, and otherwise its initial content |
| SnapshotClock.SnapshotFile.WriteSnapshot | scripts/generate_repo_dashboard_snapshot.py:285-305 | the written stamp is moved one second past the previous one when it is not later |
| SnapshotClock.SnapshotFile.WriteAll | scripts/generate_repo_dashboard_snapshot.py:285-305 | the stamp on file after a series of writes |
| SnapshotClock.StampClosedForm | scripts/generate_repo_dashboard_snapshot.py:294-301 | after n writes the stamp is the maximum of start + n and every clock reading plus the number of later writes |
| SnapshotClock.StampsIncrease | scripts/generate_repo_dashboard_snapshot.py:294-301 | the stamp strictly increases over any writes |
| SnapshotClock.StaleOnlyAfterThreshold | scripts/dashboard_refresh_publish_loop.py:93-113 | the publish loop judges a snapshot stale only once more than the threshold has passed since its own write |
| RuntimeBudget.DetectFullSuite | scripts/build_pr_test_runtime_budget_observation.py:124-176 | detection and reason codes of the loops are those specified |
| RuntimeBudget.FullSuiteIff | scripts/build_pr_test_runtime_budget_observation.py:124-176 | full suite is detected exactly when a target is the whole suite or a code or fallback target names it |
| RuntimeBudget.FallbackHasReason | scripts/build_pr_test_runtime_budget_observation.py:124-176 | an observed fallback or full suite always has a reason code |
| RuntimeBudget.ScopeFollowsObservation | scripts/build_pr_test_runtime_budget_observation.py:341-384 | the fallback scope follows from what was observed; `broad_pytest` is never emitted |
| RuntimeBudget.BuildBudget | scripts/build_pr_test_runtime_budget_observation.py:654-818 | the fallback part of the artifact |
| ShardReadiness.ResolveShardRefs | scripts/build_pr_test_shard_first_readiness_observation.py:101-168 | the loops collect exactly the required refs, missing shards, failed refs and reasons of the required shards |
| ShardReadiness.BuildReadiness | scripts/build_pr_test_shard_first_readiness_observation.py:454-605 | status, lists, signals and reasons of the readiness artifact |
| ShardReadiness.ShardFirstIff | scripts/build_pr_test_shard_first_readiness_observation.py:230-310 | without a fallback, `shard_first` exactly when no required shard blocks and one that passed or was skipped has a ref |
| ShardReadiness.ShardFirstIsSoundIff | scripts/build_pr_test_shard_first_readiness_observation.py:120-168 | `shard_first` means every required shard passed with a ref or was skipped, exactly when none is overlooked |
| ShardReadiness.FailedShardOverlooked | scripts/build_pr_test_shard_first_readiness_observation.py:147-150 | a summary on which a failed required shard goes unnoticed |
| Precheck.SignalsCarryOver | scripts/run_agent_pr_precheck.py:954-983 | what the readiness builder reads of the built artifact is what the budget builder observed |
| Precheck.ComposedStatus | scripts/run_agent_pr_precheck.py:954-1011 | on every summary and coverage record: a fallback is always justified, nothing is unknown, no code is synthesized, and `shard_first` needs no fallback, no missing or failed ref and a required ref |
| Precheck.SummarizePhase | scripts/run_agent_pr_precheck.py:165-191 | status and counts of a phase, and its non-empty reason codes, each where it first occurs |
| Ordering.FirstOccurrencesOrder | scripts/run_agent_pr_precheck.py:180-184 | codes collected that way come in the order of their first occurrences |
| Precheck.AggregateOverall | scripts/run_agent_pr_precheck.py:1098-1140 | overall status, the readiness fields, the reason codes of the blocking or else the warning checks, and the first failed check |
| Precheck.OverallIsWorstPhase | scripts/run_agent_pr_precheck.py:1098-1140 | the overall status is the worst of the phase summaries |
| Precheck.RollupConserves | scripts/run_agent_pr_precheck.py:1198-1198 | the counts of the six declared phases sum to the totals over all checks |
| Precheck.CountsSum | scripts/run_agent_pr_precheck.py:1172-1198 | check and fail counts of any distinct phases that cover the checks sum to the totals |
| Precheck.ReadinessGatesOverall | scripts/run_agent_pr_precheck.py:998-1034 | a PR is not blocked only if its composed readiness is a fallback that was observed, or `shard_first` with no fallback, no missing or failed ref and a required ref |
| CanonicalForm.NormalFormIff | scripts/run_agent_pr_precheck.py:684-691 | two documents normalise to equal trees exactly when they are equal up to volatile keys at every depth and key order |
| CanonicalForm.NormalizeIdempotent | scripts/run_agent_pr_precheck.py:686-691 | normalising twice is normalising once |
| CanonicalForm.TwiceStableIff | scripts/run_agent_pr_precheck.py:693-730 | no drift exactly when each target's captures are equivalent or both unreadable, for any dump whose text determines a normalised tree |
| AuthorityDetectors.SameScope | scripts/authority_leak_rules.py:68-96 | whatever the registry, both detectors have a file in scope or neither, unless its relative path starts with the root again |
| AuthorityDetectors.SamePathIff | scripts/authority_leak_rules.py:39-43 | the two looked-up paths are equal exactly when the relative path does not start with the root again, for a root that is not slashes only |
| AuthorityDetectors.ScopesDiffer | scripts/authority_shape_detector.py:20-31 | a family of paths and registries on which one detector scans the file and the other does not |
| AuthorityDetectors.FindForbiddenVocabulary | scripts/authority_leak_rules.py:150-200 | the violations of a JSON document, fields then values, in document order |
| AuthorityDetectors.FieldReportsCountKeys | scripts/authority_leak_rules.py:131-188 | forbidden-field reports number exactly the forbidden key occurrences of the tree |
| AuthorityDetectors.DetectShapes | scripts/authority_shape_detector.py:132-184 | the outcome/action and certification/promotion violations, object by object |
| AuthorityDetectors.ObjectKeysExtracted | scripts/authority_shape_detector.py:61-74 | the vocabulary scanner sees every key of every object the shape detector looks at |
| AuthorityDetectors.CrossDetector | scripts/authority_shape_detector.py:161-184 | without overrides, a document with no vocabulary report has neither shape violation |
| AuthorityDetectors.OutcomeCoveredIff | scripts/authority_leak_rules.py:99-111 | under overrides the implication holds for outcome/action exactly when no decision field is overridden |
| AuthorityDetectors.CertificationCoveredIff | scripts/authority_leak_rules.py:99-111 | and for certification/promotion exactly when a field of one kind is left |
| DependencyGraph.ExtractSystems | scripts/build_dependency_graph.py:141-157 | the systems, each list sorted without repetition, in id order |
| DependencyGraph.BuildEdges | scripts/build_dependency_graph.py:224-261 | the collected edges, sorted, are the listing of the specified edge set |
| DependencyGraph.BuildGraph | scripts/build_dependency_graph.py:398-425 | systems, nodes and edges of the graph |
| DependencyGraph.NodesAgreeWithEdges | scripts/build_dependency_graph.py:191-221 | a node's producers and consumers are exactly the sorted systems with an emits or consumes edge to it |
| DependencyGraph.EdgesHaveNodes | scripts/build_dependency_graph.py:224-261 | edges are duplicate-free and every endpoint is a node, `depends_on` targets aside |
| DependencyGraph.GraphClosedIff | scripts/build_dependency_graph.py:224-261 | every endpoint is a node exactly when every declared contract is in the manifest |
| DependencyGraph.GraphOrderIndependent | scripts/build_dependency_graph.py:401-425 | nodes and edges do not depend on registry or manifest order |
| SourceIndexes.CheckDuplicates | scripts/build_source_indexes.py:120-144 | an id is reported exactly when two places of the traceability rows carry it and one of them is not documented as a duplicate |
| SourceIndexes.EmitObligationIndex | scripts/build_source_indexes.py:166-191 | the rows of the obligation index |
| SourceIndexes.EmitComponentMap | scripts/build_source_indexes.py:194-224 | the rows of the component map |
| SourceIndexes.IndexConservesRows | scripts/build_source_indexes.py:166-191 | the index holds every traceability row with its source, as often as declared, in key order |
| SourceIndexes.IndexOrderIndependent | scripts/build_source_indexes.py:166-191 | with distinct (obligation, source, trace) triples the index does not depend on artifact order |
| SourceIndexes.ComponentMapDerivable | scripts/build_source_indexes.py:194-224 | the component map of the artifacts is the one derivable from the emitted index |
| SourceIndexes.ComponentMapOrderIndependent | scripts/build_source_indexes.py:194-224 | the component map does not depend on artifact order |
| RegistryContract.UniverseIsActive | scripts/build_d3l_registry_contract.py:41-56 | both universes hold exactly the active ids, each as often as the registry |
| RegistryContract.UniverseRuleIff | scripts/build_d3l_registry_contract.py:42-63 | no excluded id is in a universe exactly when the registry's active list shares none with the other two |
| RegistryContract.ContractOrderIndependent | scripts/build_d3l_registry_contract.py:41-56 | the contract does not depend on the order of the registry's lists |
| RankingReport.Admit | scripts/build_d3l_ranking_report.py:102-119 | the projection loop admits, excludes and remembers as specified |
| RankingReport.BuildRankingReport | scripts/build_d3l_ranking_report.py:72-146 | the report, fail-closed when an input is missing |
| RankingReport.RankedProjects | scripts/build_d3l_ranking_report.py:106-119 | the ranked rows are the first entry of each universe system, in source order, ranked as the entry says or by position |
| RankingReport.FullCoversUniverse | scripts/build_d3l_ranking_report.py:121-139 | `full` names the universe; each system once exactly when no unranked one is repeated; a rearrangement of a duplicate-free universe |
| RankingReport.MissingInUniverseOrder | scripts/build_d3l_ranking_report.py:121-125 | after the ranked rows come exactly the unranked systems, in universe order |
| RankingReport.TopsArePrefixes | scripts/build_d3l_ranking_report.py:127-139 | `top_3` is a prefix of `top_10`, which is a prefix of the ranked rows, which open `full` |
| RankingReport.ExcludedIff | scripts/build_d3l_ranking_report.py:114-116 | an id is excluded exactly when the artifact names it and it lies outside the universe |
| MaturityReport.BuildMaturityReport | scripts/build_d3l_maturity_report.py:87-170 | rows, level counts and caps of the report |
| MaturityReport.CountsSumToUniverse | scripts/build_d3l_maturity_report.py:121-156 | the level counts sum to the universe |
| MaturityReport.LevelMeans | scripts/build_d3l_maturity_report.py:65-134 | each of the five levels characterised by evidence, structural signals and their number, trust state and freshness |
| MaturityReport.FreshnessOnlyCaps | scripts/build_d3l_maturity_report.py:132-134 | staleness only moves level 4 to 3 |
| MaturityReport.CapsAreLostTops | scripts/build_d3l_maturity_report.py:122-134 | the caps reported are the rows that would be at level 4 were the gate fresh |
| MaturityReport.KeyGapIsWorst | scripts/build_d3l_maturity_report.py:80-84 | the key gap is the first signal of the order among the failing ones, else the first failing one; a structural one whenever any is |
| RankMaturityAlignment.OkIff | scripts/build_d3l_rank_maturity_alignment.py:43-76 | with non-empty inputs, ok exactly when every top-three system sits at the lowest level; a warning exactly when not ok |
| RankMaturityAlignment.ChainAligns | scripts/build_d3l_rank_maturity_alignment.py:33-76 | from one contract no top-three system lacks maturity data, and ok exactly when no active system is less mature than a top-three one |
| RankMaturityAlignment.StalenessKeepsAlignment | scripts/build_d3l_rank_maturity_alignment.py:33-76 | a stale priority artifact never misaligns an aligned chain |
| WorkItems.Deduplicate | scripts/generate_work_items.py:301-310 | the loop keeps the items specified |
| WorkItems.DeduplicatedPicks | scripts/generate_work_items.py:301-310 | those are exactly the first item of each key, in ingestion order |
| WorkItems.Renumber | scripts/generate_work_items.py:313-317 | the ids are rewritten in place, nothing else changes |
| WorkItems.WorkItemIdRoundTrip | scripts/generate_work_items.py:313-317 | the number can be read back from its padded id |
| WorkItems.Generate | scripts/generate_work_items.py:409-413 | the pipeline from ingested to numbered items |
| WorkItems.OnePerKey | scripts/generate_work_items.py:301-413 | one item per (source, finding) key, each with the first ingested content of its key |
| WorkItems.OutputIsOrdered | scripts/generate_work_items.py:320-329 | priority descending, then date, then finding; ties in ingestion order |
| WorkItems.IdsAreDistinct | scripts/generate_work_items.py:313-317 | ids are the positions and pairwise distinct |
| WorkItems.GenerateIsIdempotent | scripts/generate_work_items.py:409-413 | running the pipeline on its output changes nothing |
| WorkItems.OrderIndependent | scripts/generate_work_items.py:320-413 | with one item per key and no ties the output does not depend on ingestion order |
| RiskRecord.ClassifierNeverUnknown | scripts/build_small_batch_risk_record.py:89-137 | the classifier yields a listed class on every path |
| RiskRecord.DashboardIff | scripts/build_small_batch_risk_record.py:98-105 | a path is a dashboard path exactly when it lies under a dashboard folder, so the test of line 104 never decides |
| RiskRecord.GeneratedIff | scripts/build_small_batch_risk_record.py:98-135 | a path is a generated artifact exactly when it lies under artifacts/, governance/reports/ or ecosystem/ and is no dashboard path |
| RiskRecord.ClassifyAll | scripts/build_small_batch_risk_record.py:144-159 | the dictionary holds, for each class with a path, its paths in order |
| RiskRecord.ComputeSplitRecommendation | scripts/build_small_batch_risk_record.py:223-297 | recommendation, evidence and batches of a level |
| RiskRecord.BuildRecord | scripts/build_small_batch_risk_record.py:300-395 | the record of the de-duplicated changed paths |
| RiskRecord.LevelIsRisk | scripts/build_small_batch_risk_record.py:162-220 | the level depends only on the set of classes and the number of paths, and is never unknown |
| RiskRecord.ReviewUnreachable | scripts/build_small_batch_risk_record.py:234-235 | the shipped classifier never leads to a human-review recommendation |
| RiskRecord.BatchesPartition | scripts/build_small_batch_risk_record.py:277-297 | at high and very high risk the batches hold every changed path exactly once, in a non-empty batch of its class, and the evidence is the list of paths; otherwise neither is given |
| RiskRecord.CountsConserve | scripts/build_small_batch_risk_record.py:313-346 | per-surface counts sum to the governed count, which with the other paths makes up all of them |
| RiskRecord.RiskIsMonotone | scripts/build_small_batch_risk_record.py:162-220 | changing further paths never lowers the risk |
| RiskRecord.GovernedClassesIff | scripts/build_small_batch_risk_record.py:188-204 | when the number of classes the level counts is also a number of governed classes |
| StrategyCompliance.MarkdownTables | scripts/check_strategy_compliance.py:112-130 | the two loops return the specified tables |
| StrategyCompliance.ScanFindsTables | scripts/check_strategy_compliance.py:112-130 | tables lie in disjoint, increasing ranges, each a header/separator pair and its maximal run of rows, and no pair is missed |
| StrategyCompliance.TablesAreUnique | scripts/check_strategy_compliance.py:112-130 | no other list of ranges fits that description |
| StrategyCompliance.StrategyComplianceChecker.CheckRoadmapOutputContract | scripts/check_strategy_compliance.py:132-164 | the violations appended, file by file, table by table, row by row |
| StrategyCompliance.ContractMetIff | scripts/check_strategy_compliance.py:132-164 | none is appended exactly when every file exists and is empty, or has a table with both columns and no missing or blank value in any such table |

## Left out

- Shell lexing, regular expressions, case folding, file stems and file-name parts: parameters without assumed behaviour (`Lexicon`, `lower`, `stem`).
- Hashing, JSON text, schema validation, clocks, subprocess results and return codes: parameters, likewise.
- Forbidden-pattern scan scope, import walking and the callable check of entrypoints (runner lines 142-246): results are parameters.
- Repeated step ids in one invocation: the runner's results are stated for distinct ids.
- Crash atomicity of the publish loop: files are moved one by one, and a run is modelled to its end.
- JSON text: that the sorted dump of a normalised document determines it is a hypothesis where drift is judged.
- Budget durations, budget status and recommendations, and the recommended shard and mapping candidates: separate single-branch facts.
- Detector rules on artifact types, schema refs and preparatory fields, the field lists inside shape violations, and the Python and text paths of both detectors.
- Artifact classes, descriptions, the schema and taxonomy checks of the graph builder, Mermaid and Markdown rendering.
- The source inventory, markdown extraction of sources, and writing the index files.
- Ingestion of review files, severity and priority normalisation, and the work-item summary.
- The prompt-control and violation-signal checks of the strategy checker: independent substring tests.
- The choice between the two priority artifacts, and dictionary building of the maturity report's inputs: the result is the input.
- Record ids, timestamps, refs, rationale texts and fixed labels of every artifact.
- Inputs whose JSON is not of the shape a script indexes into, where the script raises outside the modelled error paths.
- Aliasing of dictionaries shared between lists: work items and checks are values, renumbered in an array.
