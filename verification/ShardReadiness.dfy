/** The shard-first readiness observation (scripts/build_pr_test_shard_first_readiness_observation.py). */
module ShardReadiness {
  import opened Wrappers
  import opened Ordering
  import opened Json

  /** The fields the builder reads of a shard summary; a `shard_status` that is not an object is empty. */
  datatype Summary = Summary(typeExpected: bool, requiredShards: Json, shardStatus: map<string, Json>,
    artifactRefs: Json)

  /** The fields it reads of a runtime budget artifact; a justification that is not an object is None. */
  datatype BudgetInput = BudgetInput(typeExpected: bool, fallbackUsed: Json, fullSuite: Json, reasonCodes: Json,
    justification: Option<Json>)

  datatype ShardState = Passed | Failed | Unresolved | Skipped | Unhandled

  datatype Reason =
    | SummaryMissing | SummaryTypeUnexpected | BudgetMissing | BudgetTypeUnexpected
    | PassWithoutRef(shard: string) | ShardFailed(shard: string)
    | ShardUnresolved(shard: string) | ShardSkipped(shard: string)
    | InputsMissing | JustificationIncomplete | JustificationRefMissing | ReasonCodesMissing
    | JustificationSectionMissing
    | CannotProveShardFirst | RefsMissing | RefsFailed | RefsEmpty
    | FallbackWithoutUpstreamCodes | FullSuiteWithoutUpstreamCodes

  function StateOf(s: Summary, shard: string): ShardState {
    if shard !in s.shardStatus then Unresolved
    else
      var j := s.shardStatus[shard];
      if j == Str("pass") then Passed
      else if j == Str("fail") then Failed
      else if j == Str("missing") || j == Str("unknown") || j == Null then Unresolved
      else if j == Str("skipped") then Skipped
      else Unhandled
  }

  function RequiredShards(s: Summary): seq<string> { CoerceStrList(s.requiredShards) }

  /** The artifact refs whose file stem is the shard's name. */
  function RefsOf(stem: string -> string, s: Summary, shard: string): set<string> {
    set r | r in CoerceStrList(s.artifactRefs) && stem(r) == shard
  }

  // ------------------------------------------------------------ resolving shard refs

  function RequiredRefs(stem: string -> string, s: Summary, shards: seq<string>): set<string> {
    set shard, r | shard in shards && r in RefsOf(stem, s, shard)
      && (StateOf(s, shard).Passed? || StateOf(s, shard).Skipped?) :: r
  }

  function MissingShards(stem: string -> string, s: Summary, shards: seq<string>): set<string> {
    set shard | shard in shards
      && (StateOf(s, shard).Unresolved? || (StateOf(s, shard).Passed? && RefsOf(stem, s, shard) == {}))
  }

  function FailedRefs(stem: string -> string, s: Summary, shards: seq<string>): set<string> {
    set shard, r | shard in shards && r in RefsOf(stem, s, shard) && StateOf(s, shard).Failed? :: r
  }

  function ShardReason(stem: string -> string, s: Summary, shard: string): set<Reason> {
    match StateOf(s, shard)
    case Passed => if RefsOf(stem, s, shard) == {} then {PassWithoutRef(shard)} else {}
    case Failed => {ShardFailed(shard)}
    case Unresolved => {ShardUnresolved(shard)}
    case Skipped => {ShardSkipped(shard)}
    case Unhandled => {}
  }

  function ShardReasons(stem: string -> string, s: Summary, shards: seq<string>): set<Reason> {
    set shard, c | shard in shards && c in ShardReason(stem, s, shard) :: c
  }

  /** What one more shard adds to each result. */
  lemma OneMoreShard(stem: string -> string, s: Summary, shards: seq<string>, i: nat)
    requires i < |shards|
    ensures ShardReasons(stem, s, shards[..i + 1]) == ShardReasons(stem, s, shards[..i])
        + ShardReason(stem, s, shards[i])
    ensures RequiredRefs(stem, s, shards[..i + 1]) == RequiredRefs(stem, s, shards[..i])
            + (if StateOf(s, shards[i]).Passed? || StateOf(s, shards[i]).Skipped?
               then RefsOf(stem, s, shards[i]) else {})
    ensures MissingShards(stem, s, shards[..i + 1]) == MissingShards(stem, s, shards[..i])
            + (if StateOf(s, shards[i]).Unresolved?
                  || (StateOf(s, shards[i]).Passed? && RefsOf(stem, s, shards[i]) == {})
               then {shards[i]} else {})
    ensures FailedRefs(stem, s, shards[..i + 1]) == FailedRefs(stem, s, shards[..i])
            + (if StateOf(s, shards[i]).Failed? then RefsOf(stem, s, shards[i]) else {})
  {
    assert shards[..i + 1] == shards[..i] + [shards[i]];
  }

  method GroupByStem(stem: string -> string, refs: seq<string>) returns (byShard: map<string, set<string>>)
    ensures forall shard :: shard in byShard <==> exists r :: r in refs && stem(r) == shard
    ensures forall shard :: shard in byShard ==> byShard[shard] == set r | r in refs && stem(r) == shard
  {
    byShard := map[];
    for i := 0 to |refs|
      invariant forall shard :: shard in byShard <==> exists r :: r in refs[..i] && stem(r) == shard
      invariant forall shard :: shard in byShard ==> byShard[shard] == set r | r in refs[..i] && stem(r) == shard
    {
      assert refs[..i + 1] == refs[..i] + [refs[i]];
      var s := stem(refs[i]);
      byShard := byShard[s := (if s in byShard then byShard[s] else {}) + {refs[i]}];
    }
    assert refs[..|refs|] == refs;
  }

  /** `_resolve_required_shard_refs` for a summary that is present. */
  method ResolveShardRefs(stem: string -> string, s: Summary)
    returns (required: set<string>, missing: set<string>, failed: set<string>, reasons: set<Reason>)
    ensures required == RequiredRefs(stem, s, RequiredShards(s))
    ensures missing == MissingShards(stem, s, RequiredShards(s))
    ensures failed == FailedRefs(stem, s, RequiredShards(s))
    ensures reasons == ShardReasons(stem, s, RequiredShards(s))
  {
    var shards := RequiredShards(s);
    var byShard := GroupByStem(stem, CoerceStrList(s.artifactRefs));
    required, missing, failed, reasons := {}, {}, {}, {};
    for i := 0 to |shards|
      invariant required == RequiredRefs(stem, s, shards[..i])
      invariant missing == MissingShards(stem, s, shards[..i])
      invariant failed == FailedRefs(stem, s, shards[..i])
      invariant reasons == ShardReasons(stem, s, shards[..i])
    {
      var shard := shards[i];
      OneMoreShard(stem, s, shards, i);
      var refs := if shard in byShard then byShard[shard] else {};
      assert refs == RefsOf(stem, s, shard);
      match StateOf(s, shard)
      case Passed =>
        if refs != {} {
          required := required + refs;
        } else {
          missing := missing + {shard};
          reasons := reasons + {PassWithoutRef(shard)};
        }
      case Failed =>
        failed := failed + refs;
        reasons := reasons + {ShardFailed(shard)};
      case Unresolved =>
        missing := missing + {shard};
        reasons := reasons + {ShardUnresolved(shard)};
      case Skipped =>
        reasons := reasons + {ShardSkipped(shard)};
        required := required + refs;
      case Unhandled =>
    }
    assert shards[..|shards|] == shards;
  }

  // ----------------------------------------------------------------- runtime signals

  datatype Signals = Signals(fallbackUsed: bool, fullSuite: bool, codes: set<string>, justified: bool,
    reasons: set<Reason>)

  /** `_resolve_runtime_signals` */
  function ResolveSignals(budget: Option<BudgetInput>): Signals {
    match budget
    case None => Signals(false, false, {}, false, {BudgetMissing})
    case Some(b) =>
      Signals(Truthy(b.fallbackUsed), Truthy(b.fullSuite),
              SetOf(CoerceStrList(b.reasonCodes))
                + (if b.justification.Some? then SetOf(CoerceStrList(b.justification.value)) else {}),
              b.justification.Some?, if b.typeExpected then {} else {BudgetTypeUnexpected})
  }

  // -------------------------------------------------------------------- the verdict

  datatype Status = ShardFirst | FallbackJustified | MissingInputs | Partial | UnknownStatus

  predicate HasRef(ref: Option<string>) { ref.Some? && ref.value != "" }

  /** `_classify_shard_first_status` */
  function Classify(g: Signals, ref: Option<string>, required: set<string>, missing: set<string>, failed: set<string>,
                    budgetPresent: bool, summaryPresent: bool): (Status, set<Reason>)
  {
    if !summaryPresent && !budgetPresent then (MissingInputs, {InputsMissing})
    else if !summaryPresent then
      if g.fallbackUsed || g.fullSuite then
        if HasRef(ref) && g.codes != {} then (FallbackJustified, {SummaryMissing})
        else (Partial, {SummaryMissing, JustificationIncomplete})
      else (MissingInputs, {SummaryMissing})
    else if !budgetPresent then (UnknownStatus, {CannotProveShardFirst})
    else if g.fallbackUsed || g.fullSuite then
      if HasRef(ref) && g.justified && g.codes != {} then (FallbackJustified, {})
      else
        (Partial, (if HasRef(ref) then {} else {JustificationRefMissing})
          + (if g.codes == {} then {ReasonCodesMissing} else {})
                     + (if g.justified then {} else {JustificationSectionMissing}))
    else if missing != {} then (Partial, {RefsMissing})
    else if failed != {} then (Partial, {RefsFailed})
    else if required == {} then (Partial, {RefsEmpty})
    else (ShardFirst, {})
  }

  /** The codes added when upstream reports a fallback without any. */
  function Synthesized(g: Signals): set<Reason> {
    if g.codes != {} then {}
    else if g.fallbackUsed then {FallbackWithoutUpstreamCodes}
    else if g.fullSuite then {FullSuiteWithoutUpstreamCodes}
    else {}
  }

  datatype Readiness = Readiness(
    status: Status, required: seq<string>, missing: seq<string>, failed: seq<string>,
    fallbackUsed: bool, fullSuite: bool, reasons: set<Reason>)

  function ReadinessOf(
      stem: string -> string, summary: Option<Summary>, budget: Option<BudgetInput>, ref: Option<string>): Readiness {
    var shards := if summary.Some? then RequiredShards(summary.value) else [];
    var required := if summary.Some? then RequiredRefs(stem, summary.value, shards) else {};
    var missing := if summary.Some? then MissingShards(stem, summary.value, shards) else {};
    var failed := if summary.Some? then FailedRefs(stem, summary.value, shards) else {};
    var shardReasons :=
      if summary.None? then {SummaryMissing}
      else
        ShardReasons(stem, summary.value, shards)
          + (if summary.value.typeExpected then {} else {SummaryTypeUnexpected});
    var g := ResolveSignals(budget);
    var known := if budget.Some? then ref else None;
    var (status, extra) := Classify(g, known, required, missing, failed, budget.Some?, summary.Some?);
    Readiness(status, SortedStrings(required), SortedStrings(missing), SortedStrings(failed), g.fallbackUsed,
      g.fullSuite,
              shardReasons + g.reasons + extra + Synthesized(g))
  }

  /** `build_shard_first_readiness_observation` */
  method BuildReadiness(
      stem: string -> string, summary: Option<Summary>, budget: Option<BudgetInput>, ref: Option<string>)
    returns (r: Readiness)
    ensures r == ReadinessOf(stem, summary, budget, ref)
  {
    var required, missing, failed: set<string> := {}, {}, {};
    var reasons: set<Reason> := {SummaryMissing};
    if summary.Some? {
      required, missing, failed, reasons := ResolveShardRefs(stem, summary.value);
      if !summary.value.typeExpected { reasons := reasons + {SummaryTypeUnexpected}; }
    }
    var g := ResolveSignals(budget);
    var known := if budget.Some? then ref else None;
    var (status, extra) := Classify(g, known, required, missing, failed, budget.Some?, summary.Some?);
    var all := reasons + g.reasons + extra + Synthesized(g);
    r := Readiness(status, SortedStrings(required), SortedStrings(missing), SortedStrings(failed), g.fallbackUsed,
        g.fullSuite, all);
  }

  // --------------------------------------------- what shard_first says of the summary

  /** Every shard that counts against readiness: it passed without a ref, failed with one, or is unresolved. */
  predicate Blocks(stem: string -> string, s: Summary, shard: string) {
    match StateOf(s, shard)
    case Passed => RefsOf(stem, s, shard) == {}
    case Failed => RefsOf(stem, s, shard) != {}
    case Unresolved => true
    case Skipped => false
    case Unhandled => false
  }

  /** With a budget artifact and no fallback, shard_first holds exactly when no required shard blocks and one that
      passed or was skipped has an artifact ref. */
  lemma ShardFirstIff(stem: string -> string, s: Summary, b: BudgetInput, ref: Option<string>)
    requires !Truthy(b.fallbackUsed) && !Truthy(b.fullSuite)
    ensures ReadinessOf(stem, Some(s), Some(b), ref).status == ShardFirst <==>
            && (forall shard :: shard in RequiredShards(s) ==> !Blocks(stem, s, shard))
            && exists shard :: shard in RequiredShards(s) && RefsOf(stem, s, shard) != {}
                 && (StateOf(s, shard).Passed? || StateOf(s, shard).Skipped?)
  {
    var shards := RequiredShards(s);
    forall shard | shard in shards && Blocks(stem, s, shard)
      ensures MissingShards(stem, s, shards) != {} || FailedRefs(stem, s, shards) != {}
    {
      if StateOf(s, shard).Failed? {
        var r :| r in RefsOf(stem, s, shard);
        assert r in FailedRefs(stem, s, shards);
      } else {
        assert shard in MissingShards(stem, s, shards);
      }
    }
    if shard :|
      shard in shards && RefsOf(stem, s, shard) != {} && (StateOf(s, shard).Passed? || StateOf(s, shard).Skipped?)
    {
      var r :| r in RefsOf(stem, s, shard);
      assert r in RequiredRefs(stem, s, shards);
    }
    if r :| r in RequiredRefs(stem, s, shards) {
      var shard :| shard in shards && r in RefsOf(stem, s, shard)
          && (StateOf(s, shard).Passed? || StateOf(s, shard).Skipped?);
    }
    if forall shard :: shard in shards ==> !Blocks(stem, s, shard) {
      assert MissingShards(stem, s, shards) == {} && FailedRefs(stem, s, shards) == {};
    }
  }

  /** A required shard that failed but has no artifact ref, or whose status the builder does not know. */
  predicate Overlooked(stem: string -> string, s: Summary, shard: string) {
    StateOf(s, shard).Unhandled? || (StateOf(s, shard).Failed? && RefsOf(stem, s, shard) == {})
  }

  /** shard_first says that every required shard passed with a ref or was skipped, exactly when no required shard is
      overlooked. */
  lemma ShardFirstIsSoundIff(stem: string -> string, s: Summary, b: BudgetInput, ref: Option<string>)
    requires ReadinessOf(stem, Some(s), Some(b), ref).status == ShardFirst
    ensures (forall shard :: shard in RequiredShards(s) ==>
               (StateOf(s, shard).Passed? && RefsOf(stem, s, shard) != {}) || StateOf(s, shard).Skipped?)
            <==> (forall shard :: shard in RequiredShards(s) ==> !Overlooked(stem, s, shard))
  {
    ShardFirstIff(stem, s, b, ref);
  }

  /** Two required shards, the first passed with its only ref, the second failed without one. */
  function PassAndFail(a: string, b: string, ref: string): Summary {
    Summary(true, Arr([Str(a), Str(b)]), map[a := Str("pass"), b := Str("fail")], Arr([Str(ref)]))
  }

  lemma PassAndFailStates(stem: string -> string, a: string, b: string, ref: string)
    requires stem(ref) == a != b && a != "" && b != "" && ref != ""
    ensures var s := PassAndFail(a, b, ref);
            && RequiredShards(s) == [a, b] && StateOf(s, a) == Passed && StateOf(s, b) == Failed
            && RefsOf(stem, s, a) == {ref} && RefsOf(stem, s, b) == {}
  {
    var s := PassAndFail(a, b, ref);
    assert CoerceStrList(s.artifactRefs) == [ref] by { assert CoerceItems([Str(ref)][1..]) == []; }
    assert RequiredShards(s) == [a, b] by {
      assert [Str(a), Str(b)][1..] == [Str(b)] && [Str(b)][1..] == [];
      assert CoerceItems([Str(b)]) == [b];
    }
    assert "pass"[0] != "fail"[0];
  }

  lemma FailedWithoutRef(
      stem: string -> string, s: Summary, budget: BudgetInput, budgetRef: Option<string>, a: string, b: string)
    requires !Truthy(budget.fallbackUsed) && !Truthy(budget.fullSuite)
    requires RequiredShards(s) == [a, b] && StateOf(s, a) == Passed && StateOf(s, b) == Failed
    requires RefsOf(stem, s, a) != {} && RefsOf(stem, s, b) == {}
    ensures var r := ReadinessOf(stem, Some(s), Some(budget), budgetRef);
            r.status == ShardFirst && r.missing == [] && r.failed == []
  {
    ShardFirstIff(stem, s, budget, budgetRef);
    var shards := RequiredShards(s);
    assert a in shards;
    assert MissingShards(stem, s, shards) == {} && FailedRefs(stem, s, shards) == {};
    SortedStringsLists({});
  }

  /** A failed required shard goes unnoticed: with one shard passed and one failed without an artifact ref, readiness is
      shard_first and lists neither a missing nor a failed shard. */
  lemma FailedShardOverlooked(
      stem: string -> string, budget: BudgetInput, budgetRef: Option<string>, a: string, b: string, ref: string)
    requires !Truthy(budget.fallbackUsed) && !Truthy(budget.fullSuite)
    requires stem(ref) == a != b && a != "" && b != "" && ref != ""
    ensures var s := PassAndFail(a, b, ref);
            && StateOf(s, b) == Failed && b in RequiredShards(s)
            && var r := ReadinessOf(stem, Some(s), Some(budget), budgetRef);
            r.status == ShardFirst && r.missing == [] && r.failed == []
  {
    PassAndFailStates(stem, a, b, ref);
    FailedWithoutRef(stem, PassAndFail(a, b, ref), budget, budgetRef, a, b);
  }
}
