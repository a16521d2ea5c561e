/**
 The dashboard refresh and publish loop (scripts/dashboard_refresh_publish_loop.py).

 The disk is three parts: the public directory, its `.refresh_stage` folder, and the rest of
 the repository, which holds the sources and, in the same folder as most of them, the run records.
 `RunOnce` specifies one run; `Publisher.RunLoop` is the program.
 */
module PublishLoop {
  import opened Wrappers
  import opened Text

  type Hash = string

  /** File names, one constructor for each name the loop spells out: `RefreshRunRecord` is `refresh_run_record.json`. */
  datatype Known =
    // required sources in artifacts/rq_master_36_01
    | NextActionRecommendationRecord | NextActionOutcomeRecord | RecommendationAccuracyTracker
    | ConfidenceCalibrationArtifact | StuckLoopDetector | RecommendationReviewSurface
    | ReadinessToExpandValidator | DeployCiTruthGate | OperatorSurfaceSnapshotExport
    | ErrorBudgetEnforcementOutcome | RecurrencePreventionStatus | JudgmentApplicationArtifact
    | OperatorTrustCloseoutArtifact | CompatibilityMirrorRetirementAssessment | DashboardPublicContractCoverage
    | GovernedPromotionDisciplineGate | CycleComparator0305
    // required sources in artifacts/ops_master_01
    | CurrentBottleneckRecord | DriftTrendContinuityArtifact | CanonicalRoadmapStateArtifact
    | MaturityPhaseTracker | HardGateStatusRecord | CurrentRunStateRecord | DeferredItemRegister
    | DeferredReturnTracker | ConstitutionalDriftCheckerResult | RoadmapAlignmentValidatorResult
    | SerialBundleValidatorResult
    // the snapshot, and the six files a run generates for publication
    | RepoSnapshot
    | RepoSnapshotMeta | DashboardFreshnessStatus | DashboardPublicationSyncAudit | DashboardPublicationManifest
    | RefreshRunRecord | PublicationAttemptRecord
    // further run records
    | DashboardFreshnessStatusRecord | DashboardRefreshPublishMetrics | DashboardRefreshPublishAlert
    | DashboardFreshnessContract

  datatype Name = Listed(known: Known) | Other(text: string)

  predicate IsJson(n: Name) { n.Other? ==> EndsWith(n.text, ".json") }

  datatype Dir = RqMaster | OpsMaster | DashboardArtifacts | ContractExamples | OtherDir(text: string)

  datatype Path = Path(dir: Dir, name: Name)

  datatype Decision = Allow | Block | Freeze

  datatype Reason = StaleSnapshot | MissingRequired | ManifestIncoherent | BudgetExhausted | FreshnessOk

  datatype Mode = Scheduled | Manual | Repair | Test

  datatype Injection = NoInjection | MalformedTimestamp | MalformedManifest | DropRequiredArtifact | DropContract

  /** Clock readings and arguments of one run. */
  datatype Input = Input(mode: Mode, inject: Injection, now: int, started: int, ended: int)

  datatype Content =
    | Raw(bytes: string)
    | FreshnessRecord(stale: bool, age: int, threshold: int, version: string, runId: string)
    | SnapshotMeta(refreshed: string, size: nat, runId: string)
    | FreshnessStatus(stale: bool, age: int, snapshot: string, version: string, runId: string)
    | SyncAudit(publishedAt: string, stale: bool, required: nat, records: map<Name, Hash>, runId: string)
    | Manifest(publishedAt: string, state: string, files: set<Name>, fileRecords: map<Name, Hash>, completeness: Hash,
      runId: string)
    | AttemptRecord(decision: Decision, reasons: set<Reason>, required: nat, loaded: nat, valid: nat,
      missing: set<Name>, age: int, mode: Mode, runId: string)
    | RefreshRecord(success: bool, refreshedFiles: set<Name>, stale: bool, started: int, ended: int, mode: Mode,
      runId: string)
    | Metrics(success: bool, age: int, stale: bool, runId: string)
    | Alert(decision: Decision, reasons: set<Reason>, runId: string)

  datatype FreshnessContract = FreshnessContract(field: Option<string>, threshold: Option<int>, version: Option<string>)

  /** Hashing, JSON and time parsing: no behaviour assumed. */
  datatype Codec = Codec(
    hash: Content -> Hash,
    size: Content -> nat,
    digest: map<Name, Hash> -> Hash,                      // completeness_sha256 of a record table
    runId: int -> string,
    parseTime: string -> Option<int>,
    contractOf: Content -> Option<FreshnessContract>,       // None: not a JSON object
    timestampOf: (Content, string) -> Option<string>,       // the stripped field; None: not a JSON object
    budgetFrozen: Content -> Option<bool>)     // status in {blocked, exhausted, freeze}; None: not a JSON object

  datatype Disk = Disk(public_: map<Name, Content>, stage: map<Name, Content>, repo: map<Path, Content>)

  // -------------------------------------------------------------------- locations

  const SNAPSHOT := Listed(RepoSnapshot)
  const META := Listed(RepoSnapshotMeta)
  const FRESHNESS := Listed(DashboardFreshnessStatus)
  const SYNC_AUDIT := Listed(DashboardPublicationSyncAudit)
  const MANIFEST := Listed(DashboardPublicationManifest)
  const REFRESH_RECORD := Listed(RefreshRunRecord)
  const ATTEMPT_RECORD := Listed(PublicationAttemptRecord)
  const HARD_GATE := Listed(HardGateStatusRecord)

  const CONTRACT_PATH := Path(ContractExamples, Listed(DashboardFreshnessContract))
  const SNAPSHOT_PATH := Path(DashboardArtifacts, SNAPSHOT)
  const BUDGET_PATH := Path(RqMaster, Listed(ErrorBudgetEnforcementOutcome))

  const GENERATED: set<Name> := {META, FRESHNESS, SYNC_AUDIT, MANIFEST, REFRESH_RECORD, ATTEMPT_RECORD}

  /** REQUIRED_SOURCES and the snapshot: where a published file comes from. */
  function SourceDir(k: Known): Option<Dir> {
    match k
    case NextActionRecommendationRecord | NextActionOutcomeRecord | RecommendationAccuracyTracker |
       ConfidenceCalibrationArtifact | StuckLoopDetector | RecommendationReviewSurface |
       ReadinessToExpandValidator | DeployCiTruthGate | OperatorSurfaceSnapshotExport |
       ErrorBudgetEnforcementOutcome | RecurrencePreventionStatus | JudgmentApplicationArtifact |
       OperatorTrustCloseoutArtifact | CompatibilityMirrorRetirementAssessment |
       DashboardPublicContractCoverage | GovernedPromotionDisciplineGate | CycleComparator0305
      => Some(RqMaster)
    case CurrentBottleneckRecord | DriftTrendContinuityArtifact | CanonicalRoadmapStateArtifact |
       MaturityPhaseTracker | HardGateStatusRecord | CurrentRunStateRecord | DeferredItemRegister |
       DeferredReturnTracker | ConstitutionalDriftCheckerResult | RoadmapAlignmentValidatorResult |
       SerialBundleValidatorResult
      => Some(OpsMaster)
    case RepoSnapshot => Some(DashboardArtifacts)
    case _ => None
  }

  function RequiredSources(): map<Name, Dir> {
    map k: Known | SourceDir(k).Some? :: Listed(k) := SourceDir(k).value
  }

  /** What a run writes into artifacts/rq_master_36_01, beside most of its sources. */
  predicate IsRunRecord(p: Path) {
    p.dir == RqMaster && p.name.Listed? &&
    match p.name.known
    case DashboardFreshnessStatusRecord | PublicationAttemptRecord | RefreshRunRecord
       | DashboardRefreshPublishMetrics | DashboardRefreshPublishAlert => true
    case _ => false
  }

  /** What the loop relies on in its table of sources. */
  ghost predicate SourceTable(sources: map<Name, Dir>) {
    && SNAPSHOT in sources && sources[SNAPSHOT] == DashboardArtifacts
    && sources.Keys !! GENERATED
    && forall n :: n in sources ==> IsJson(n) && !IsRunRecord(Path(sources[n], n))
  }

  /** The source table meets those needs: no source is named like a generated file or, in the run directory, like a run
      record. */
  lemma RequiredSourcesFit()
    ensures SourceTable(RequiredSources())
    ensures !IsRunRecord(BUDGET_PATH)
  {
    assert SourceDir(RepoSnapshot) == Some(DashboardArtifacts);
  }

  // ------------------------------------------------------- opening: before any write

  datatype Freshness = Freshness(stale: bool, age: int, threshold: int, version: string)

  /** `evaluate_freshness`; None where the source raises. */
  function EvaluateFreshness(
      codec: Codec, contract: FreshnessContract, timestamp: string, now: int): Option<Freshness> {
    if contract.threshold.None? || codec.parseTime(timestamp).None? || contract.version.None? then None
    else
      var elapsed := now - codec.parseTime(timestamp).value;
      var age := if elapsed > 0 then elapsed else 0;
      Some(Freshness(age > contract.threshold.value, age, contract.threshold.value, contract.version.value))
  }

  datatype Opening = Opening(timestamp: string, freshness: Freshness)

  /** Lines 122-138; None where the source raises. */
  function Open(codec: Codec, repo: map<Path, Content>, in_: Input): Option<Opening> {
    if CONTRACT_PATH !in repo || codec.contractOf(repo[CONTRACT_PATH]).None? || SNAPSHOT_PATH !in repo then None
    else
      var contract := if in_.inject.DropContract? then FreshnessContract(None, None, None)
          else codec.contractOf(repo[CONTRACT_PATH]).value;
      var field := if contract.field.Some? then contract.field.value else "generated_at";
      match codec.timestampOf(repo[SNAPSHOT_PATH], field)
      case None => None
      case Some(stamp) =>
        var timestamp := if in_.inject.MalformedTimestamp? then "bad-time" else stamp;
        if timestamp == "" then None
        else match EvaluateFreshness(codec, contract, timestamp, in_.now)
             case None => None
             case Some(f) => Some(Opening(timestamp, f))
  }

  // ------------------------------------------------------------- filling the stage

  function Copied(sources: map<Name, Dir>, repo: map<Path, Content>): map<Name, Content> {
    map n | n in sources && Path(sources[n], n) in repo :: repo[Path(sources[n], n)]
  }

  function Absent(sources: map<Name, Dir>, repo: map<Path, Content>): set<Name> {
    set n | n in sources && Path(sources[n], n) !in repo
  }

  predicate Drops(inject: Injection, copied: map<Name, Content>) {
    inject.DropRequiredArtifact? && HARD_GATE in copied
  }

  /** The staged sources and the missing ones, after the injected deletion. */
  function StagedSources(sources: map<Name, Dir>, repo: map<Path, Content>, inject: Injection): map<Name, Content> {
    var copied := Copied(sources, repo);
    if Drops(inject, copied) then copied - {HARD_GATE} else copied
  }

  function Missing(sources: map<Name, Dir>, repo: map<Path, Content>, inject: Injection): set<Name> {
    Absent(sources, repo) + if Drops(inject, Copied(sources, repo)) then {HARD_GATE} else {}
  }

  function RequiredFiles(sources: map<Name, Dir>): set<Name> {
    sources.Keys + GENERATED
  }

  /** The hashes of the named files that are staged. */
  function HashesOf(codec: Codec, names: set<Name>, staged: map<Name, Content>): map<Name, Hash> {
    map n | n in names && n in staged :: codec.hash(staged[n])
  }

  function JsonNames(staged: map<Name, Content>): set<Name> {
    set n | n in staged && IsJson(n)
  }

  /** The metadata and freshness status, then the sync audit, on top of the staged sources. */
  function WithAudit(
      codec: Codec, o: Opening, id: string, size: nat, required: nat, sources: map<Name, Content>): map<Name, Content> {
    var f := o.freshness;
    var staged := sources[META := SnapshotMeta(o.timestamp, size, id)]
                         [FRESHNESS := FreshnessStatus(f.stale, f.age, o.timestamp, f.version, id)];
    staged[SYNC_AUDIT := SyncAudit(o.timestamp, f.stale, required, HashesOf(codec, JsonNames(staged), staged), id)]
  }

  /** The stage after lines 141-224. */
  function Audited(
      codec: Codec, sources: map<Name, Dir>, repo: map<Path, Content>, in_: Input, o: Opening): map<Name, Content>
    requires SNAPSHOT_PATH in repo
  {
    WithAudit(codec, o, codec.runId(in_.started), codec.size(repo[SNAPSHOT_PATH]), |RequiredFiles(sources)|,
              StagedSources(sources, repo, in_.inject))
  }

  // ------------------------------------------------------------------- the verdict

  function Reasons(stale: bool, missing: bool, inject: Injection, frozen: bool): set<Reason> {
    (if stale then {StaleSnapshot} else {}) + (if missing then {MissingRequired} else {})
    + (if inject.MalformedManifest? then {ManifestIncoherent} else {}) + (if frozen then {BudgetExhausted} else {})
  }

  function Decide(reasons: set<Reason>, frozen: bool): Decision {
    if reasons == {} then Allow else if frozen then Freeze else Block
  }

  function ManifestOf(
      codec: Codec, sources: map<Name, Dir>, in_: Input, o: Opening, staged: map<Name, Content>): Content {
    var records := HashesOf(codec, RequiredFiles(sources), staged);
    Manifest(o.timestamp,
             if in_.inject.MalformedManifest? then "invalid-state" else if o.freshness.stale then "stale" else "live",
             RequiredFiles(sources), records, codec.digest(records), codec.runId(in_.started))
  }

  function Shown(reasons: set<Reason>): set<Reason> {
    if reasons == {} then {FreshnessOk} else reasons
  }

  function AttemptOf(required: nat, in_: Input, o: Opening, id: string, missing: set<Name>, loaded: nat,
                     reasons: set<Reason>, decision: Decision): Content {
    AttemptRecord(decision, Shown(reasons), required, loaded,
                  if reasons == {} then loaded else if loaded > 0 then loaded - 1 else 0,
                  missing, o.freshness.age, in_.mode, id)
  }

  function RefreshOf(copied: set<Name>, in_: Input, o: Opening, id: string, decision: Decision): Content {
    RefreshRecord(decision.Allow?, copied + {SNAPSHOT, META, FRESHNESS}, o.freshness.stale, in_.started, in_.ended,
                  in_.mode, id)
  }

  function BudgetStatus(codec: Codec, repo: map<Path, Content>): Option<bool> {
    if BUDGET_PATH in repo then codec.budgetFrozen(repo[BUDGET_PATH]) else Some(false)
  }

  /** The stage before and after the manifest is written a second time (lines 333 and 350). */
  function WithFirstManifest(codec: Codec, sources: map<Name, Dir>, in_: Input, o: Opening,
                             audited: map<Name, Content>, attempt: Content, refresh: Content): map<Name, Content> {
    audited[ATTEMPT_RECORD := attempt][REFRESH_RECORD := refresh]
           [MANIFEST := ManifestOf(codec, sources, in_, o, audited)]
  }

  function WithManifest(codec: Codec, sources: map<Name, Dir>, in_: Input, o: Opening,
                        audited: map<Name, Content>, attempt: Content, refresh: Content): map<Name, Content> {
    var first := WithFirstManifest(codec, sources, in_, o, audited, attempt, refresh);
    first[MANIFEST := ManifestOf(codec, sources, in_, o, first)]
  }

  function RunRoot(k: Known): Path { Path(RqMaster, Listed(k)) }

  function WithFreshness(codec: Codec, repo: map<Path, Content>, in_: Input, o: Opening): map<Path, Content> {
    var f := o.freshness;
    repo[RunRoot(DashboardFreshnessStatusRecord) :=
      FreshnessRecord(f.stale, f.age, f.threshold, f.version, codec.runId(in_.started))]
  }

  /** The repository with the other run records of a completed run. */
  function WithRecords(
      codec: Codec, repo: map<Path, Content>, in_: Input, o: Opening, attempt: Content, refresh: Content,
      reasons: set<Reason>, decision: Decision): map<Path, Content> {
    var id := codec.runId(in_.started);
    repo
      [RunRoot(PublicationAttemptRecord) := attempt]
      [RunRoot(RefreshRunRecord) := refresh]
      [RunRoot(DashboardRefreshPublishMetrics) := Metrics(decision.Allow?, o.freshness.age, o.freshness.stale, id)]
      [RunRoot(DashboardRefreshPublishAlert) := Alert(decision, Shown(reasons), id)]
  }

  datatype Ending = Rejected | Completed(decision: Decision)

  /** What a run that completes comes to: its decision, the stage it leaves, and the repository with the run records. */
  datatype Completion = Completion(decision: Decision, staged: map<Name, Content>, repo: map<Path, Content>)

  function Complete(codec: Codec, sources: map<Name, Dir>, in_: Input, o: Opening, audited: map<Name, Content>,
                    missing: set<Name>, copied: set<Name>, repo: map<Path, Content>, frozen: bool): Completion {
    var id := codec.runId(in_.started);
    var reasons := Reasons(o.freshness.stale, missing != {}, in_.inject, frozen);
    var decision := Decide(reasons, frozen);
    var loaded := |HashesOf(codec, RequiredFiles(sources), audited)|;
    var attempt := AttemptOf(|RequiredFiles(sources)|, in_, o, id, missing, loaded, reasons, decision);
    var refresh := RefreshOf(copied, in_, o, id, decision);
    Completion(decision, WithManifest(codec, sources, in_, o, audited, attempt, refresh),
            WithRecords(codec, repo, in_, o, attempt, refresh, reasons, decision))
  }

  /** The end of a run that completes: its stage is moved when the decision allows. */
  function Settle(public_: map<Name, Content>, r: Completion): (Ending, Disk) {
    (Completed(r.decision),
     if r.decision.Allow? then Disk(public_ + r.staged, map[], r.repo) else Disk(public_, r.staged, r.repo))
  }

  /** From the filled stage on: the budget gate, the records, the publication (lines 273-381). */
  function Close(
      codec: Codec, sources: map<Name, Dir>, d: Disk, in_: Input, o: Opening, missing: set<Name>, copied: set<Name>)
      : (Ending, Disk) {
    match BudgetStatus(codec, d.repo)
    case None => (Rejected, d)
    case Some(frozen) => Settle(d.public_, Complete(codec, sources, in_, o, d.stage, missing, copied, d.repo, frozen))
  }

  function Filled(codec: Codec, sources: map<Name, Dir>, d: Disk, in_: Input, o: Opening): Disk
    requires SNAPSHOT_PATH in d.repo
  {
    Disk(d.public_, Audited(codec, sources, d.repo, in_, o), WithFreshness(codec, d.repo, in_, o))
  }

  /** One run: how it ends, and the disk it leaves. */
  function RunOnce(codec: Codec, sources: map<Name, Dir>, d: Disk, in_: Input): (Ending, Disk) {
    match Open(codec, d.repo, in_)
    case None => (Rejected, d)
    case Some(o) =>
      Close(codec, sources, Filled(codec, sources, d, in_, o), in_, o, Missing(sources, d.repo, in_.inject),
        Copied(sources, d.repo).Keys)
  }

  // ------------------------------------------------------------------- the program

  class Publisher {
    var public_: map<Name, Content>
    var stage: map<Name, Content>
    var repo: map<Path, Content>

    constructor (d: Disk)
      ensures State() == d
    {
      public_, stage, repo := d.public_, d.stage, d.repo;
    }

    ghost function State(): Disk
      reads this
    {
      Disk(public_, stage, repo)
    }

    /** Lines 153-159: one source after the other. */
    method CopySources(sources: map<Name, Dir>) returns (missing: set<Name>)
      requires stage == map[]
      modifies `stage
      ensures stage == Copied(sources, repo) && missing == Absent(sources, repo)
    {
      missing := {};
      var todo := sources.Keys;
      while todo != {}
        invariant todo <= sources.Keys
        invariant stage == map n | n in sources && n !in todo
            && Path(sources[n], n) in repo :: repo[Path(sources[n], n)]
        invariant missing == set n | n in sources && n !in todo && Path(sources[n], n) !in repo
        decreases todo
      {
        var n :| n in todo;
        var src := Path(sources[n], n);
        if src in repo { stage := stage[n := repo[src]]; } else { missing := missing + {n}; }
        todo := todo - {n};
      }
    }

    /** Lines 207-214, 240-248 and 337-345: hash the named files that exist in the stage. */
    method HashFiles(codec: Codec, names: set<Name>) returns (records: map<Name, Hash>)
      ensures records == HashesOf(codec, names, stage)
    {
      records := map[];
      var todo := names;
      while todo != {}
        invariant todo <= names
        invariant records == map n | n in names && n !in todo && n in stage :: codec.hash(stage[n])
        decreases todo
      {
        var n :| n in todo;
        if n in stage { records := records[n := codec.hash(stage[n])]; }
        todo := todo - {n};
      }
    }

    /** Lines 378-380: move the staged files one by one, then remove the stage. */
    method MoveStage()
      modifies `public_, `stage
      ensures public_ == old(public_ + stage) && stage == map[]
    {
      while stage != map[]
        invariant public_ + stage == old(public_ + stage)
        decreases stage.Keys
      {
        var n :| n in stage;
        public_ := public_[n := stage[n]];
        stage := stage - {n};
      }
    }

    /** Lines 153-165: the copies, and the injected deletion. */
    method StageSources(sources: map<Name, Dir>, inject: Injection) returns (missing: set<Name>)
      requires stage == map[]
      modifies `stage
      ensures stage == StagedSources(sources, repo, inject)
      ensures missing == Missing(sources, repo, inject)
    {
      missing := CopySources(sources);
      if inject.DropRequiredArtifact? && HARD_GATE in stage {
        stage := stage - {HARD_GATE};
        missing := missing + {HARD_GATE};
      }
    }

    /** Lines 141-224: clear the stage, copy the sources, add the metadata, the freshness status and the sync audit. */
    method FillStage(codec: Codec, sources: map<Name, Dir>, in_: Input, o: Opening) returns (missing: set<Name>)
      requires SNAPSHOT_PATH in repo
      modifies `stage, `repo
      ensures stage == Audited(codec, sources, old(repo), in_, o)
      ensures missing == Missing(sources, old(repo), in_.inject)
      ensures repo == WithFreshness(codec, old(repo), in_, o)
    {
      var id, f := codec.runId(in_.started), o.freshness;
      stage := map[];
      missing := StageSources(sources, in_.inject);
      stage := stage[META := SnapshotMeta(o.timestamp, codec.size(repo[SNAPSHOT_PATH]), id)];
      stage := stage[FRESHNESS := FreshnessStatus(f.stale, f.age, o.timestamp, f.version, id)];
      repo := repo[RunRoot(DashboardFreshnessStatusRecord) :=
          FreshnessRecord(f.stale, f.age, f.threshold, f.version, id)];
      var records := HashFiles(codec, JsonNames(stage));
      stage := stage[SYNC_AUDIT := SyncAudit(o.timestamp, f.stale, |RequiredFiles(sources)|, records, id)];
    }

    /** Lines 226-237 with 239-252 or 336-349: the manifest over the files staged now. */
    method BuildManifest(codec: Codec, sources: map<Name, Dir>, in_: Input, o: Opening) returns (manifest: Content)
      ensures manifest == ManifestOf(codec, sources, in_, o, stage)
    {
      var records := HashFiles(codec, RequiredFiles(sources));
      var state := if in_.inject.MalformedManifest? then "invalid-state" else if o.freshness.stale then "stale"
          else "live";
      manifest := Manifest(o.timestamp, state, RequiredFiles(sources), records, codec.digest(records),
          codec.runId(in_.started));
    }

    method Judge(o: Opening, missing: set<Name>, inject: Injection, frozen: bool) returns (reasons: set<Reason>)
      ensures reasons == Reasons(o.freshness.stale, missing != {}, inject, frozen)
    {
      reasons := {};
      if o.freshness.stale { reasons := reasons + {StaleSnapshot}; }
      if missing != {} { reasons := reasons + {MissingRequired}; }
      if inject.MalformedManifest? { reasons := reasons + {ManifestIncoherent}; }
      if frozen { reasons := reasons + {BudgetExhausted}; }
    }

    /** Lines 283-373: records of the attempt in the stage and in the run directory, the manifest written twice. */
    method StageRecords(
        codec: Codec, sources: map<Name, Dir>, in_: Input, o: Opening, missing: set<Name>, copied: set<Name>,
        frozen: bool)
      returns (decision: Decision)
      modifies `stage, `repo
      ensures Completion(decision, stage, repo)
          == Complete(codec, sources, in_, o, old(stage), missing, copied, old(repo), frozen)
    {
      var id := codec.runId(in_.started);
      var reasons := Judge(o, missing, in_.inject, frozen);
      decision := Decide(reasons, frozen);
      var manifest := BuildManifest(codec, sources, in_, o);
      var loaded := HashFiles(codec, RequiredFiles(sources));
      var attempt := AttemptOf(|RequiredFiles(sources)|, in_, o, id, missing, |loaded|, reasons, decision);
      stage := stage[ATTEMPT_RECORD := attempt];
      repo := repo[RunRoot(PublicationAttemptRecord) := attempt];
      var refresh := RefreshOf(copied, in_, o, id, decision);
      stage := stage[REFRESH_RECORD := refresh];
      repo := repo[RunRoot(RefreshRunRecord) := refresh];
      stage := stage[MANIFEST := manifest];
      manifest := BuildManifest(codec, sources, in_, o);
      stage := stage[MANIFEST := manifest];
      repo := repo[RunRoot(DashboardRefreshPublishMetrics) :=
          Metrics(decision.Allow?, o.freshness.age, o.freshness.stale, id)];
      repo := repo[RunRoot(DashboardRefreshPublishAlert) := Alert(decision, Shown(reasons), id)];
    }

    method CloseRun(
        codec: Codec, sources: map<Name, Dir>, in_: Input, o: Opening, missing: set<Name>, copied: set<Name>)
        returns (ending: Ending)
      modifies this
      ensures (ending, State()) == Close(codec, sources, old(State()), in_, o, missing, copied)
    {
      var budget := BudgetStatus(codec, repo);
      if budget.None? { return Rejected; }
      ending := CompleteRun(codec, sources, in_, o, missing, copied, budget.value);
    }

    method CompleteRun(
        codec: Codec, sources: map<Name, Dir>, in_: Input, o: Opening, missing: set<Name>, copied: set<Name>,
        frozen: bool)
      returns (ending: Ending)
      modifies this
      ensures (ending, State()) ==
        Settle(old(public_), Complete(codec, sources, in_, o, old(stage), missing, copied, old(repo), frozen))
    {
      var decision := StageRecords(codec, sources, in_, o, missing, copied, frozen);
      ending := SettleRun(decision);
    }

    /** Lines 375-381: publish when allowed. */
    method SettleRun(decision: Decision) returns (ending: Ending)
      modifies this
      ensures (ending, State()) == Settle(old(public_), Completion(decision, old(stage), old(repo)))
    {
      if decision.Allow? { MoveStage(); }
      ending := Completed(decision);
    }

    /** `run_loop`. */
    method RunLoop(codec: Codec, sources: map<Name, Dir>, in_: Input) returns (ending: Ending)
      modifies this
      ensures (ending, State()) == RunOnce(codec, sources, old(State()), in_)
    {
      var opening := Open(codec, repo, in_);
      if opening.None? { return Rejected; }
      var copied := Copied(sources, repo).Keys;
      var missing := FillStage(codec, sources, in_, opening.value);
      assert State() == Filled(codec, sources, old(State()), in_, opening.value);
      ending := CloseRun(codec, sources, in_, opening.value, missing, copied);
    }
  }
}
